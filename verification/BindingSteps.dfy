/** The steps of reconcileBindings around its write loop (internal/controller/bindings.go): reading, adopting, and deleting. */
module BindingSteps {
  import opened Base
  import opened Api
  import opened Patch
  import opened Matching
  import opened Server
  import opened Ownership
  import opened Desired
  import opened BindingPlan
  import opened BindingAttempts
  import opened BindingHistory
  import opened BindingWrites
  import opened Resources

  // ---------- reading ----------

  /** The keys of the Bindings that a status records or that carry the marker. */
  ghost function ManagedKeys(recorded: seq<Key>, marked: set<Object>): set<Key> {
    Elements(recorded) + set o | o in marked && o.model.BindingModel? :: o.pk
  }

  lemma ManagedKey(recorded: seq<Key>, marked: set<Object>, k: Key)
    ensures k in ManagedKeys(recorded, marked) <==> k in recorded || BindingObject(k) in marked
  {
    assert BindingObject(k) in marked ==> BindingObject(k).pk == k;
    if o :| o in marked && o.model.BindingModel? && o.pk == k {
      assert o == BindingObject(k);
    }
  }

  ghost predicate IsListOf(existing: seq<Binding>, target: Key, bindings: map<Key, Binding>) {
    && DistinctPks(existing)
    && forall b :: b in existing <==> b.pk in bindings && bindings[b.pk] == b && b.target == target
  }

  /** Every recorded Binding that exists is marked, and the role exists: looking at them needs no request that writes. */
  ghost predicate AllMarked(marker: Marker, recorded: seq<Key>, existing: seq<Binding>)
    reads marker, marker.server
  {
    && marker.RoleExists()
    && forall b :: b in existing && b.pk in recorded ==> BindingObject(b.pk) in marker.Marked()
  }

  /** The first Bindings of a list, split by whether their key is in keys, and the largest order among them. */
  ghost predicate Sorted(existing: seq<Binding>, i: nat, keys: set<Key>, ours: seq<Binding>, others: seq<Binding>, maxOrder: int)
    requires i <= |existing|
  {
    && DistinctPks(ours) && DistinctPks(others) && 0 <= maxOrder <= MAX_INT32
    && (forall b :: b in ours <==> b in existing[..i] && b.pk in keys)
    && (forall b :: b in others <==> b in existing[..i] && b.pk !in keys)
    && (forall b :: b in existing[..i] ==> b.order <= maxOrder)
    && (maxOrder == 0 || exists b :: b in existing[..i] && b.order == maxOrder)
  }

  lemma SortedNext(existing: seq<Binding>, i: nat, keys: set<Key>, ours: seq<Binding>, others: seq<Binding>, maxOrder: int,
                   next: int, isOurs: bool, newKeys: set<Key>)
    requires DistinctPks(existing) && i < |existing| && Sorted(existing, i, keys, ours, others, maxOrder)
    requires existing[i].order <= MAX_INT32 && next == if existing[i].order > maxOrder then existing[i].order else maxOrder
    requires newKeys - {existing[i].pk} == keys - {existing[i].pk} && (isOurs <==> existing[i].pk in newKeys)
    ensures Sorted(existing, i + 1, newKeys, if isOurs then ours + [existing[i]] else ours, if isOurs then others
                   else others + [existing[i]], next)
  {
    assert existing[..i + 1] == existing[..i] + [existing[i]];
    forall b | b in existing[..i] ensures b.pk != existing[i].pk && (b.pk in newKeys <==> b.pk in keys) {
      assert b.pk in newKeys - {existing[i].pk} <==> b.pk in keys - {existing[i].pk};
    }
  }

  lemma SortedNone(existing: seq<Binding>, keys: set<Key>)
    ensures Sorted(existing, 0, keys, [], [], 0)
  {}

  /** The Bindings of other targets. */
  function Foreign(bindings: map<Key, Binding>, target: Key): set<Key> {
    set k | k in bindings && bindings[k].target != target
  }

  function Pks(bindings: seq<Binding>): set<Key> {
    set b | b in bindings :: b.pk
  }

  /** Whether the operator manages a Binding: it is recorded, then marked again when needed, or it carries the marker. */
  method Claims(markers: MarkerCache, s: Resource, binding: Binding) returns (res: Result<bool>)
    requires markers.marker.server.Valid() && binding.pk in markers.marker.server.bindings
    modifies markers, markers.marker, markers.clock, markers.marker.server`roles, markers.marker.server`sequence,
             markers.marker.server`grants, markers.marker.server`history
    ensures OnlyMarkerWrites(old(markers.marker.server.history), markers.marker.server.history, markers.marker.server.bindings,
                             markers.marker.server.outposts)
    ensures MarksOnly(markers, Elements(s.status.bindingUuids) * {binding.pk})
    ensures binding.pk in s.status.bindingUuids && res.Ok? ==> res.value
    ensures old(markers.Exact()) && res.Ok? ==>
              && (res.value <==> binding.pk in s.status.bindingUuids || BindingObject(binding.pk) in old(markers.marker.Marked()))
              && (res.value ==> BindingObject(binding.pk) in markers.marker.Marked())
    ensures old(markers.Exact()) && res.Err? ==> res.error == Unavailable
    ensures old(markers.Exact()) && old(markers.marker.RoleExists())
            && (binding.pk in s.status.bindingUuids ==> BindingObject(binding.pk) in old(markers.marker.Marked())) ==>
              && markers.marker.RoleExists() && markers.marker.Marked() == old(markers.marker.Marked())
              && markers.marker.server.history == old(markers.marker.server.history)
  {
    hide ValidBindings, ValidApplications, ValidLinks, ValidProviders, ValidOutposts, ValidRoles, MarkedBy;
    if binding.pk in s.status.bindingUuids {
      var ensured := markers.Ensure(BindingObject(binding.pk));
      return if ensured.Ok? then Ok(true) else Err(ensured.error);
    }
    res := markers.Contains(BindingObject(binding.pk));
  }

  /**
   managedBindings: splits the Bindings by whether the operator manages them, and returns the largest order. With an
   exact cache the keys of the managed ones are those recorded in the status or marked before.
   */
  method SplitManaged(markers: MarkerCache, s: Resource, existing: seq<Binding>)
    returns (res: Result<()>, ours: seq<Binding>, others: seq<Binding>, maxOrder: int, ghost keys: set<Key>)
    requires markers.marker.server.Valid() && DistinctPks(existing)
    requires forall b :: b in existing ==> b.order <= MAX_INT32 && b.pk in markers.marker.server.bindings
    modifies markers, markers.marker, markers.clock, markers.marker.server`roles, markers.marker.server`sequence,
             markers.marker.server`grants, markers.marker.server`history
    ensures OnlyMarkerWrites(old(markers.marker.server.history), markers.marker.server.history, markers.marker.server.bindings,
                             markers.marker.server.outposts)
    ensures MarksOnly(markers, Elements(s.status.bindingUuids) * Pks(existing))
    ensures res.Ok? ==> Sorted(existing, |existing|, keys, ours, others, maxOrder)
    ensures old(markers.Exact()) ==> keys == ManagedKeys(s.status.bindingUuids, old(markers.marker.Marked()))
    ensures old(markers.Exact()) && res.Ok? ==> forall b :: b in ours ==> BindingObject(b.pk) in markers.marker.Marked()
    ensures old(markers.Exact()) && res.Err? ==> res.error == Unavailable
    ensures old(markers.Exact()) && old(AllMarked(markers.marker, s.status.bindingUuids, existing)) ==>
              markers.marker.server.history == old(markers.marker.server.history)
              && markers.marker.Marked() == old(markers.marker.Marked())
  {
    hide ValidBindings, ValidApplications, ValidLinks, ValidProviders, ValidOutposts, ValidRoles, MarkedBy, Sorted, ManagedKeys;
    ours, others, maxOrder := [], [], 0;
    keys := if markers.Exact() then ManagedKeys(s.status.bindingUuids, markers.marker.Marked()) else {};
    SortedNone(existing, keys);
    for i := 0 to |existing|
      invariant MarksOnly(markers, Elements(s.status.bindingUuids) * Pks(existing))
      invariant OnlyMarkerWrites(old(markers.marker.server.history), markers.marker.server.history, markers.marker.server.bindings,
                                 markers.marker.server.outposts)
      invariant Sorted(existing, i, keys, ours, others, maxOrder)
      invariant old(markers.Exact()) ==> keys == ManagedKeys(s.status.bindingUuids, old(markers.marker.Marked()))
      invariant old(markers.Exact()) ==> forall b :: b in ours ==> BindingObject(b.pk) in markers.marker.Marked()
      invariant old(markers.Exact()) && old(AllMarked(markers.marker, s.status.bindingUuids, existing)) ==>
                  && markers.marker.RoleExists()
                  && markers.marker.server.history == old(markers.marker.server.history)
                  && markers.marker.Marked() == old(markers.marker.Marked())
    {
      var binding := existing[i];
      var claimed := Claims(markers, s, binding);
      if claimed.Err? {
        return Err(claimed.error), ours, others, maxOrder, keys;
      }
      ManagedKey(s.status.bindingUuids, old(markers.marker.Marked()), binding.pk);
      ghost var newKeys := if claimed.value then keys + {binding.pk} else keys - {binding.pk};
      assert old(markers.Exact()) ==> newKeys == keys;
      var next := if binding.order > maxOrder then binding.order else maxOrder;
      SortedNext(existing, i, keys, ours, others, maxOrder, next, claimed.value, newKeys);
      keys, maxOrder := newKeys, next;
      if claimed.value {
        ours := ours + [binding];
      } else {
        others := others + [binding];
      }
    }
    return Ok(()), ours, others, maxOrder, keys;
  }

  /** Only markers of Bindings differ, and none of a foreign one. */
  ghost predicate OtherMarks(foreign: set<Key>, before: set<Object>, after: set<Object>) {
    forall o: Object :: !o.model.BindingModel? || o.pk in foreign ==> (o in before <==> o in after)
  }

  lemma OtherMarksChain(foreign: set<Key>, a: set<Object>, b: set<Object>, c: set<Object>)
    requires OtherMarks(foreign, a, b) && OtherMarks(foreign, b, c)
    ensures OtherMarks(foreign, a, c)
  {}

  lemma OnlyBindingMarks(foreign: set<Key>, before: set<Object>, after: set<Object>, keys: set<Key>)
    requires before <= after && forall o :: o in after ==> o in before || (o.model.BindingModel? && o.pk in keys)
    requires keys !! foreign
    ensures OtherMarks(foreign, before, after)
  {}

  // ---------- adopting ----------

  /**
   Completes the plan with the exact matches among the unmanaged Bindings, each of them marked first. A rule that
   has a managed match is skipped.
   */
  method Adopt(markers: MarkerCache, first: seq<Option<Binding>>, second: seq<Option<Binding>>)
    returns (res: Result<()>, plan: seq<Option<Binding>>)
    requires markers.marker.server.Valid() && |first| == |second|
    requires forall i :: 0 <= i < |second| && second[i].Some? ==> second[i].value.pk in markers.marker.server.bindings
    modifies markers, markers.marker, markers.clock, markers.marker.server`roles, markers.marker.server`sequence,
             markers.marker.server`grants, markers.marker.server`history
    ensures OnlyMarkerWrites(old(markers.marker.server.history), markers.marker.server.history, markers.marker.server.bindings,
                             markers.marker.server.outposts)
    ensures MarksOnly(markers, PlannedKeys(plan))
    ensures |plan| == |first| && forall i :: 0 <= i < |plan| ==> plan[i] == first[i] || (first[i].None? && plan[i] == second[i])
    ensures res.Ok? ==> Combined(first, second, plan)
    ensures old(markers.Exact()) && res.Ok? ==>
              forall i :: 0 <= i < |plan| && plan[i].Some? && first[i].None? ==>
                     BindingObject(plan[i].value.pk) in markers.marker.Marked()
    ensures old(markers.Exact()) && res.Err? ==> res.error == Unavailable
    ensures (forall i :: 0 <= i < |first| ==> first[i].Some?) ==>
              res.Ok? && markers.marker.server.history == old(markers.marker.server.history)
  {
    hide ValidBindings, ValidApplications, ValidLinks, ValidProviders, ValidOutposts, ValidRoles, MarkedBy;
    plan := first;
    for i := 0 to |second|
      invariant MarksOnly(markers, PlannedKeys(plan))
      invariant OnlyMarkerWrites(old(markers.marker.server.history), markers.marker.server.history, markers.marker.server.bindings,
                                 markers.marker.server.outposts)
      invariant |plan| == |first|
      invariant forall j :: 0 <= j < |plan| ==> plan[j] == if j < i && first[j].None? then second[j] else first[j]
      invariant old(markers.Exact()) ==>
                  forall j :: 0 <= j < i && plan[j].Some? && first[j].None? ==>
                         BindingObject(plan[j].value.pk) in markers.marker.Marked()
      invariant (forall j :: 0 <= j < |first| ==> first[j].Some?) ==>
                  markers.marker.server.history == old(markers.marker.server.history)
    {
      if plan[i].Some? || second[i].None? {
        continue;
      }
      PlannedGrows(plan, i, second[i].value);
      var ensured := markers.Ensure(BindingObject(second[i].value.pk));
      plan := plan[i := second[i]];
      if ensured.Err? {
        return ensured, plan;
      }
    }
    return Ok(()), plan;
  }

  lemma PlannedGrows(plan: seq<Option<Binding>>, i: nat, b: Binding)
    requires i < |plan| && plan[i].None?
    ensures PlannedKeys(plan[i := Some(b)]) == PlannedKeys(plan) + {b.pk}
  {
    var longer := plan[i := Some(b)];
    assert longer[i].value.pk == b.pk;
    forall k | k in PlannedKeys(plan) ensures k in PlannedKeys(longer) {
      var j :| 0 <= j < |plan| && plan[j].Some? && plan[j].value.pk == k;
      assert longer[j] == plan[j];
    }
  }

  // ---------- deleting ----------

  /** What holds between any two requests after the write loop: mid is where it ended, and dropped is deleted since. */
  ghost predicate Cleanup(pass: Pass, kept: seq<Key>, middle: map<Key, Binding>, mid: nat, dropped: set<Key>,
                          now: map<Key, Binding>, history: seq<Write>)
    requires pass.Valid()
  {
    && now == middle - dropped && (forall k :: k in kept ==> k !in dropped)
    && |kept| == |pass.rules| && Progress(pass.rules, pass.target, pass.first, pass.plan, kept, middle)
    && Written(pass, kept, middle)
    && SingleSubjects(middle, pass.target)
    && mid <= |history| && WritePhase(history, pass.start, mid, pass.first, middle, pass.target, pass.rules)
    && DeletePhase(history, mid, middle, now, pass.target, pass.rules) && Before(history, pass.start, pass.first, |history|) == now
    && Creations(history, pass.start) == |CreatedRules(pass.plan, |kept|)|
    && (pass.room ==> NoneRefused(history, pass.start))
  }

  lemma KeptSuffice(pass: Pass, kept: seq<Key>, middle: map<Key, Binding>, dropped: set<Key>)
    requires pass.Valid() && |kept| == |pass.rules|
    requires Progress(pass.rules, pass.target, pass.first, pass.plan, kept, middle)
    requires forall k :: k in kept ==> k !in dropped
    ensures AllRepresented(middle - dropped, pass.target, pass.rules)
    ensures SingleSubjects(middle, pass.target) ==> SingleSubjects(middle - dropped, pass.target)
  {
    hide ValidRule, BindingClass, RuleClass, SingleSubject, PlanFits;
    forall i | 0 <= i < |pass.rules| ensures Represented(middle - dropped, pass.target, pass.rules[i]) {
      assert kept[i] in middle - dropped;
    }
  }

  lemma CleanupStarts(pass: Pass, kept: seq<Key>, now: map<Key, Binding>, history: seq<Write>)
    requires pass.Valid() && Stage(pass, kept, now, history) && |kept| == |pass.rules|
    ensures Cleanup(pass, kept, now, |history|, {}, now, history)
  {
    assert now - {} == now;
    KeptSuffice(pass, kept, now, {});
  }

  lemma CleanupStep(pass: Pass, kept: seq<Key>, middle: map<Key, Binding>, mid: nat, dropped: set<Key>, now: map<Key, Binding>,
                    history: seq<Write>, extra: set<Key>, longer: seq<Write>)
    requires pass.Valid() && Cleanup(pass, kept, middle, mid, dropped, now, history)
    requires forall k :: k in kept ==> k !in extra
    requires history < longer
    requires forall k :: |history| <= k < |longer| ==>
               longer[k].bindings == now - extra && (longer[k].call.DeleteBindingCall? || RoleCall(longer[k].call))
    ensures Cleanup(pass, kept, middle, mid, dropped + extra, now - extra, longer)
  {
    hide Progress, Written, PlanFits, KeepsRules, AllRepresented, SingleSubjects, Grows;
    assert middle - (dropped + extra) == now - extra;
    KeptSuffice(pass, kept, middle, dropped + extra);
    ExtendDeletePhase(history, longer, mid, middle, now, now - extra, pass.target, pass.rules);
    NoCreations(history, longer, pass.start);
    assert forall k :: 0 <= k < |history| ==> longer[k] == history[k];
    assert WritePhase(longer, pass.start, mid, pass.first, middle, pass.target, pass.rules) by {
      WritePhaseOf(history, longer, pass.start, mid, pass.first, middle, pass.target, pass.rules);
    }
  }

  /** Only a deletion and marker requests happened, and the Bindings are as they are now ever since. */
  ghost predicate OnlyDeletes(before: seq<Write>, after: seq<Write>, now: map<Key, Binding>) {
    && before < after
    && forall k :: |before| <= k < |after| ==>
      after[k].bindings == now && (after[k].call.DeleteBindingCall? || RoleCall(after[k].call))
  }

  /** Deletes a managed Binding and then its marker. A Binding that is already gone counts as deleted. */
  method DeleteBinding(markers: MarkerCache, uuid: Key) returns (res: Result<()>)
    requires markers.marker.server.Valid()
    modifies markers, markers.marker, markers.clock, markers.marker.server`bindings, markers.marker.server`roles,
             markers.marker.server`sequence, markers.marker.server`grants, markers.marker.server`history
    ensures markers.marker.server.Valid()
            && OnlyDeletes(old(markers.marker.server.history), markers.marker.server.history, markers.marker.server.bindings)
    ensures var now := markers.marker.server.bindings;
            now == old(markers.marker.server.bindings) - {uuid} || (res.Err? && now == old(markers.marker.server.bindings))
    ensures old(markers.Exact()) ==>
              && markers.Exact() && (res.Err? ==> res.error == Unavailable)
              && markers.marker.Marked() == if res.Ok? then old(markers.marker.Marked()) - {BindingObject(uuid)}
                else old(markers.marker.Marked())
  {
    hide ValidBindings, ValidApplications, ValidLinks, ValidProviders, ValidOutposts, ValidRoles, MarkedBy;
    res := markers.marker.server.DeletePolicyBinding(uuid);
    if res.Err? && res.error != NotFound {
      return;
    }
    res := markers.Remove(BindingObject(uuid));
  }

  /** The marks that deleting the Bindings with some keys leaves. */
  ghost predicate MarksWithout(before: set<Object>, after: set<Object>, dropped: set<Key>, complete: bool) {
    && after <= before
    && (forall o :: o in before && !(o.model.BindingModel? && o.pk in dropped) ==> o in after)
    && (complete ==> forall k :: k in dropped ==> BindingObject(k) !in after)
  }

  /** Deletes the managed Bindings that no rule needs. */
  method DeleteUnneeded(markers: MarkerCache, pass: Pass, ours: seq<Binding>, kept: seq<Key>, ghost middle: map<Key, Binding>,
                        ghost mid: nat)
    returns (res: Result<()>, ghost dropped: set<Key>)
    requires markers.marker.server.Valid() && pass.Valid()
    requires Cleanup(pass, kept, middle, mid, {}, markers.marker.server.bindings, markers.marker.server.history)
    modifies markers, markers.marker, markers.clock, markers.marker.server`bindings, markers.marker.server`roles,
             markers.marker.server`sequence, markers.marker.server`grants, markers.marker.server`history
    ensures markers.marker.server.Valid()
    ensures Cleanup(pass, kept, middle, mid, dropped, markers.marker.server.bindings, markers.marker.server.history)
    ensures res.Ok? ==> forall b :: b in ours ==> b.pk in kept || b.pk in dropped
    ensures forall k :: k in dropped ==> exists b :: b in ours && b.pk == k
    ensures old(markers.Exact()) ==>
              && markers.Exact() && (res.Err? ==> res.error == Unavailable)
              && MarksWithout(old(markers.marker.Marked()), markers.marker.Marked(), dropped, res.Ok?)
    ensures (forall b :: b in ours ==> b.pk in kept) ==>
              && res.Ok? && dropped == {} && markers.marker.server.history == old(markers.marker.server.history)
    ensures old(markers.marker.server.history) <= markers.marker.server.history
  {
    hide ValidBindings, ValidApplications, ValidLinks, ValidProviders, ValidOutposts, ValidRoles, MarkedBy, Cleanup, Pass.Valid,
      MarksWithout, OnlyDeletes, MarkerCache.Exact;
    dropped := {};
    NoMarksDropped(markers.marker.Marked());
    for i := 0 to |ours|
      invariant markers.marker.server.Valid()
      invariant Cleanup(pass, kept, middle, mid, dropped, markers.marker.server.bindings, markers.marker.server.history)
      invariant forall j :: 0 <= j < i ==> ours[j].pk in kept || ours[j].pk in dropped
      invariant forall k :: k in dropped ==> exists b :: b in ours && b.pk == k
      invariant old(markers.Exact()) ==>
                  && markers.Exact()
                  && MarksWithout(old(markers.marker.Marked()), markers.marker.Marked(), dropped, true)
      invariant (forall b :: b in ours ==> b.pk in kept) ==>
                  dropped == {} && markers.marker.server.history == old(markers.marker.server.history)
      invariant old(markers.marker.server.history) <= markers.marker.server.history
    {
      if ours[i].pk in kept {
        assert ours[i] in ours;
        continue;
      }
      ghost var history, now, marked := markers.marker.server.history, markers.marker.server.bindings, markers.marker.Marked();
      var deleted := DeleteBinding(markers, ours[i].pk);
      ghost var extra: set<Key> := if markers.marker.server.bindings == now then {} else {ours[i].pk};
      if deleted.Ok? {
        extra := {ours[i].pk};
      }
      assert now - {} == now;
      DeletesExtend(history, markers.marker.server.history, markers.marker.server.bindings);
      if old(markers.Exact()) {
        MarksDropped(old(markers.marker.Marked()), marked, markers.marker.Marked(), dropped, extra, ours[i].pk, deleted.Ok?);
      }
      CleanupStep(pass, kept, middle, mid, dropped, now, history, extra, markers.marker.server.history);
      dropped := dropped + extra;
      assert ours[i] in ours;
      if deleted.Err? {
        return deleted, dropped;
      }
    }
    return Ok(()), dropped;
  }

  lemma NoMarksDropped(marked: set<Object>)
    ensures MarksWithout(marked, marked, {}, true)
  {}

  lemma DeletesExtend(before: seq<Write>, after: seq<Write>, now: map<Key, Binding>)
    requires OnlyDeletes(before, after, now)
    ensures before < after
    ensures forall k :: |before| <= k < |after| ==>
              after[k].bindings == now && (after[k].call.DeleteBindingCall? || RoleCall(after[k].call))
  {}

  lemma MarksDropped(first: set<Object>, marked: set<Object>, now: set<Object>, dropped: set<Key>, extra: set<Key>, uuid: Key,
                     complete: bool)
    requires MarksWithout(first, marked, dropped, true) && extra <= {uuid} && (complete ==> extra == {uuid})
    requires now == if complete then marked - {BindingObject(uuid)} else marked
    ensures MarksWithout(first, now, dropped + extra, complete)
  {}

  // ---------- unmanaged Bindings ----------

  /** Deletes the unmanaged Bindings when prune is set, and otherwise reports them, which a public Application does not allow. */
  method HandleUnmanaged(server: Authentik, s: Resource, pass: Pass, kept: seq<Key>, unmanaged: seq<Binding>, prune: bool,
                         public: bool, ghost middle: map<Key, Binding>, ghost mid: nat, ghost before: set<Key>)
    returns (res: Result<()>, ghost dropped: set<Key>)
    requires server.Valid() && pass.Valid()
    requires Cleanup(pass, kept, middle, mid, before, server.bindings, server.history)
    requires forall b :: b in unmanaged ==> b.pk !in kept
    modifies s`status, server`bindings, server`history
    ensures server.Valid()
    ensures Cleanup(pass, kept, middle, mid, before + dropped, server.bindings, server.history)
    ensures forall k :: k in dropped ==> prune && exists b :: b in unmanaged && b.pk == k
    ensures (res.Ok? || res.error.Stop?) && prune ==> forall b :: b in unmanaged ==> b.pk in dropped
    ensures res.Err? ==>
              || res.error == Unavailable
              || (res.error == Stop(UnmanagedBindings) && public && s.status.unmanagedBindings != [])
    ensures res.Ok? ==> !public || s.status.unmanagedBindings == []
    ensures s.status == old(s.status).(unmanagedBindings := s.status.unmanagedBindings)
    ensures res.Err? && res.error == Unavailable ==> s.status == old(s.status)
    ensures res.Ok? || res.error.Stop? ==>
              Elements(s.status.unmanagedBindings) == (if prune then {} else set b | b in unmanaged :: b.pk)
    ensures !prune || unmanaged == [] ==> server.history == old(server.history) && dropped == {}
    ensures old(server.history) <= server.history
  {
    hide ValidBindings, ValidApplications, ValidLinks, ValidProviders, ValidOutposts, ValidRoles, MarkedBy, Cleanup, Pass.Valid;
    dropped := {};
    assert before + {} == before;
    if prune {
      for i := 0 to |unmanaged|
        invariant server.Valid()
        invariant Cleanup(pass, kept, middle, mid, before + dropped, server.bindings, server.history)
        invariant forall j :: 0 <= j < i ==> unmanaged[j].pk in dropped
        invariant forall k :: k in dropped ==> exists b :: b in unmanaged && b.pk == k
        invariant old(server.history) <= server.history
        invariant unmanaged == [] ==> server.history == old(server.history) && dropped == {}
        invariant s.status == old(s.status)
      {
        ghost var history, now := server.history, server.bindings;
        var deleted := server.DeletePolicyBinding(unmanaged[i].pk);
        assert unmanaged[i] in unmanaged;
        if deleted.Err? && deleted.error != NotFound {
          assert now - {} == now && before + dropped + {} == before + dropped;
          CleanupStep(pass, kept, middle, mid, before + dropped, now, history, {}, server.history);
          return Err(deleted.error), dropped;
        }
        assert server.bindings == now - {unmanaged[i].pk};
        assert before + dropped + {unmanaged[i].pk} == before + (dropped + {unmanaged[i].pk});
        CleanupStep(pass, kept, middle, mid, before + dropped, now, history, {unmanaged[i].pk}, server.history);
        dropped := dropped + {unmanaged[i].pk};
      }
    }
    var reported: seq<Key> := [];
    if !prune {
      for i := 0 to |unmanaged|
        invariant |reported| == i && forall j :: 0 <= j < i ==> reported[j] == unmanaged[j].pk
      {
        if * {
          return Err(Unavailable), dropped;  // the name of the subject could not be read
        }
        reported := reported + [unmanaged[i].pk];
      }
      ReportedKeys(unmanaged, reported);
    }
    s.status := s.status.(unmanagedBindings := reported);
    if reported != [] && public {
      return Err(Stop(UnmanagedBindings)), dropped;
    }
    return Ok(()), dropped;
  }

  lemma ReportedKeys(unmanaged: seq<Binding>, reported: seq<Key>)
    requires |reported| == |unmanaged| && forall j :: 0 <= j < |unmanaged| ==> reported[j] == unmanaged[j].pk
    ensures Elements(reported) == set b | b in unmanaged :: b.pk
  {
    forall b | b in unmanaged ensures b.pk in reported {
      var j :| 0 <= j < |unmanaged| && unmanaged[j] == b;
      assert reported[j] == b.pk;
    }
  }

  // ---------- the pass ----------

  /** The orders of the target leave room for a new Binding per rule in 32 bits. */
  ghost predicate OrdersFit(bindings: map<Key, Binding>, target: Key, n: nat) {
    && ORDER_STEP * n <= MAX_INT32
    && forall k :: k in bindings && bindings[k].target == target ==> bindings[k].order + ORDER_STEP * n <= MAX_INT32
  }

  /** A pass that fits what was read, and that creates and adopts as many Bindings as the tallies say. */
  ghost predicate Planned(pass: Pass, ours: seq<Binding>, others: seq<Binding>)
    requires ValidRules(pass.rules)
  {
    && pass.Valid() && |pass.plan| == |pass.rules|
    && Split(pass.target, pass.first, pass.managed, ours, others)
    && Counts(pass.rules, pass.target, pass.first, pass.managed, pass.plan)
  }

  lemma ListSplits(existing: seq<Binding>, target: Key, bindings: map<Key, Binding>, keys: set<Key>, ours: seq<Binding>,
                   others: seq<Binding>, maxOrder: int)
    requires IsListOf(existing, target, bindings) && Sorted(existing, |existing|, keys, ours, others, maxOrder)
    requires ValidBindingKeys(bindings)
    ensures Split(target, bindings, keys, ours, others) && DistinctPks(ours) && DistinctPks(others)
    ensures 0 <= maxOrder <= MAX_INT32 && OrdersUpTo(bindings, target, maxOrder)
    ensures forall n: nat :: OrdersFit(bindings, target, n) ==> maxOrder + ORDER_STEP * n <= MAX_INT32
  {
    assert existing[..|existing|] == existing;
    forall k | k in bindings && bindings[k].target == target ensures bindings[k].order <= maxOrder {
      assert bindings[k] in existing;
    }
  }

  lemma PassFits(pass: Pass, ours: seq<Binding>, others: seq<Binding>, first: seq<Option<Binding>>, second: seq<Option<Binding>>)
    requires ValidRules(pass.rules) && ValidBindingKeys(pass.first) && DistinctPks(ours) && DistinctPks(others)
    requires Split(pass.target, pass.first, pass.managed, ours, others)
    requires BestAssignment(pass.rules, ours, false, first) && BestAssignment(pass.rules, others, true, second)
    requires |first| == |second| == |pass.rules| && InOrder(pass.rules, first) && InOrder(pass.rules, second)
    requires Combined(first, second, pass.plan)
    ensures Planned(pass, ours, others) && pass.Valid()
  {
    CombinedFits(pass.rules, pass.target, pass.first, pass.managed, ours, others, first, second, pass.plan);
    hide BestAssignment, Split, PlanFits, InOrder, DistinctPks, CountsOf;
    forall wanted ensures CountsOf(pass.rules, pass.target, pass.first, pass.managed, pass.plan, wanted) {
      PlanCounts(pass.rules, pass.target, pass.first, pass.managed, ours, others, first, second, pass.plan, wanted);
    }
  }

  /** The Bindings are as a successful pass leaves them. */
  ghost predicate Quiet(markers: MarkerCache, s: Resource, target: Key, rules: seq<Rule>)
    requires ValidRules(rules)
    reads markers, markers.marker, markers.marker.server, s
  {
    && markers.Exact() && markers.marker.RoleExists() && SingleSubjects(markers.marker.server.bindings, target)
    && Settled(rules, target, false, markers.marker.server.bindings, s.status.bindingUuids, markers.marker.Marked())
  }

  lemma SettledIsMarked(rules: seq<Rule>, target: Key, bindings: map<Key, Binding>, recorded: seq<Key>, marked: set<Object>)
    requires ValidRules(rules) && Settled(rules, target, false, bindings, recorded, marked)
    ensures forall k :: k in recorded ==> BindingObject(k) in marked
  {}

  /** In a settled state the managed Bindings alone make the plan, and it has nothing to write. */
  lemma SettledMatches(rules: seq<Rule>, target: Key, bindings: map<Key, Binding>, recorded: seq<Key>, marked: set<Object>,
                       ours: seq<Binding>, others: seq<Binding>, first: seq<Option<Binding>>)
    requires ValidRules(rules) && ValidBindingKeys(bindings) && SingleSubjects(bindings, target)
    requires Settled(rules, target, false, bindings, recorded, marked)
    requires Split(target, bindings, ManagedKeys(recorded, marked), ours, others) && DistinctPks(ours)
    requires BestAssignment(rules, ours, false, first)
    ensures |first| == |rules| && forall i :: 0 <= i < |rules| ==>
              first[i].Some? && DiffBinding(DesiredBinding(target, rules[i]), first[i].value).None?
    ensures forall b :: b in ours ==> Some(b) in first
  {
    forall b: Binding | b.pk in bindings && bindings[b.pk] == b && b.target == target
      ensures b.pk in ManagedKeys(recorded, marked) <==> b.pk in recorded
    {
      ManagedKey(recorded, marked, b.pk);
    }
    hide DiffBinding, DesiredBinding, BestAssignment, Settled, SingleSubjects;
    assert forall b :: b in ours <==> b.pk in bindings && bindings[b.pk] == b && b.target == target && b.pk in recorded;
    SettledPlan(rules, target, false, bindings, recorded, marked, ours, first);
    assert |first| == |rules| by { MatchLength(rules, ours, false, first); }
  }

  /** Lists the Bindings of the target and splits them. */
  method ReadBindings(markers: MarkerCache, s: Resource, target: Key, ghost rules: seq<Rule>)
    returns (res: Result<()>, ours: seq<Binding>, others: seq<Binding>, maxOrder: int, ghost keys: set<Key>)
    requires markers.marker.server.Valid() && ValidRules(rules)
    modifies markers, markers.marker, markers.clock, markers.marker.server`roles, markers.marker.server`sequence,
             markers.marker.server`grants, markers.marker.server`history
    ensures OnlyMarkerWrites(old(markers.marker.server.history), markers.marker.server.history, markers.marker.server.bindings,
                             markers.marker.server.outposts)
    ensures MarksOnly(markers, Elements(s.status.bindingUuids) - Foreign(markers.marker.server.bindings, target))
            && ValidBindingKeys(markers.marker.server.bindings)
    ensures res.Ok? ==>
              && Split(target, markers.marker.server.bindings, keys, ours, others) && DistinctPks(ours) && DistinctPks(others)
              && 0 <= maxOrder <= MAX_INT32 && OrdersUpTo(markers.marker.server.bindings, target, maxOrder)
              && forall n: nat :: OrdersFit(markers.marker.server.bindings, target, n) ==> maxOrder + ORDER_STEP * n <= MAX_INT32
    ensures old(markers.Exact()) && res.Ok? ==>
              && keys == ManagedKeys(s.status.bindingUuids, old(markers.marker.Marked()))
              && forall b :: b in ours ==> BindingObject(b.pk) in markers.marker.Marked()
    ensures old(markers.Exact()) && res.Err? ==> res.error == Unavailable
    ensures old(Quiet(markers, s, target, rules)) ==> markers.marker.server.history == old(markers.marker.server.history)
  {
    hide ValidBindings, ValidApplications, ValidLinks, ValidProviders, ValidOutposts, ValidRoles, MarkedBy, Sorted, ManagedKeys,
      Split, Settled, OrdersFit, OrdersUpTo, SingleSubjects, ValidRules;
    var server := markers.marker.server;
    Fresh(server.bindings, server.applications, server.proxyProviders, server.oauth2Providers, server.sequence);
    ListKeys(server);
    ours, others, maxOrder, keys := [], [], 0, {};
    var listed := server.ListPolicyBindings(target);
    if listed.Err? {
      return Err(listed.error), ours, others, maxOrder, keys;
    }
    if Quiet(markers, s, target, rules) {
      SettledIsMarked(rules, target, server.bindings, s.status.bindingUuids, markers.marker.Marked());
    }
    res, ours, others, maxOrder, keys := SplitManaged(markers, s, listed.value);
    if res.Ok? {
      ListSplits(listed.value, target, server.bindings, keys, ours, others, maxOrder);
    }
  }

  /** Everything before the first write of a Binding: reads, marks what is recorded, matches, and adopts. */
  method PlanPass(markers: MarkerCache, s: Resource, target: Key, rules: seq<Rule>)
    returns (res: Result<Pass>, ours: seq<Binding>, others: seq<Binding>, maxOrder: int)
    requires markers.marker.server.Valid() && ValidRules(rules)
    modifies markers, markers.marker, markers.clock, markers.marker.server`roles, markers.marker.server`sequence,
             markers.marker.server`grants, markers.marker.server`history
    ensures OnlyMarkerWrites(old(markers.marker.server.history), markers.marker.server.history, markers.marker.server.bindings,
                             markers.marker.server.outposts)
    ensures markers.marker.server.Valid()
    ensures res.Ok? ==>
              var pass := res.value;
              && pass.target == target && pass.rules == rules && pass.first == markers.marker.server.bindings
              && pass.start == |old(markers.marker.server.history)|
              && pass.room == OrdersFit(markers.marker.server.bindings, target, |rules|)
              && Planned(pass, ours, others) && Room(pass, 0, pass.first, maxOrder) && 0 <= maxOrder <= MAX_INT32
              && (old(markers.Exact()) ==>
                    && pass.managed == ManagedKeys(s.status.bindingUuids, old(markers.marker.Marked()))
                    && PlanMarked(pass, others, markers.marker.Marked()))
              && (old(Quiet(markers, s, target, rules)) ==> pass.Valid() && NothingToWrite(pass) && forall b :: b in ours ==>
                  Some(b) in pass.plan)
    ensures old(markers.Exact()) ==>
              && markers.Exact() && old(markers.marker.Marked()) <= markers.marker.Marked()
              && OtherMarks(Foreign(markers.marker.server.bindings, target), old(markers.marker.Marked()), markers.marker.Marked())
              && (res.Ok? ==> KeysWhileWriting(res.value.first, res.value.managed, res.value.plan, [],
                                               ManagedKeys(s.status.bindingUuids, markers.marker.Marked())))
              && (res.Err? ==>
                    && res.error == Unavailable
                    && Tallied(rules, target, markers.marker.server.bindings,
                               ManagedKeys(s.status.bindingUuids, old(markers.marker.Marked())),
                               markers.marker.server.bindings, ManagedKeys(s.status.bindingUuids, markers.marker.Marked()), false))
    ensures old(Quiet(markers, s, target, rules)) ==> markers.marker.server.history == old(markers.marker.server.history)
  {
    hide ValidBindings, ValidApplications, ValidLinks, ValidProviders, ValidOutposts, ValidRoles, MarkedBy, ManagedKeys, ValidRules,
      BestAssignment, Split, Planned, PlanMarked, OrdersFit, Pass.Valid, OrdersUpTo, Combined, PlannedKeys, Settled, SingleSubjects,
      NothingToWrite, DistinctPks, DiffBinding, DesiredBinding, InOrder, Tallied, KeysWhileWriting, OtherMarks;
    var server := markers.marker.server;
    var read;
    ghost var keys;
    read, ours, others, maxOrder, keys := ReadBindings(markers, s, target, rules);
    ghost var foreign := Foreign(server.bindings, target);
    if old(markers.Exact()) {
      OnlyBindingMarks(foreign, old(markers.marker.Marked()), markers.marker.Marked(), Elements(s.status.bindingUuids) - foreign);
    }
    if read.Err? {
      if old(markers.Exact()) {
        KeysAfterReading(s.status.bindingUuids, old(markers.marker.Marked()), markers.marker.Marked());
        NothingAdopted(rules, target, server.bindings, ManagedKeys(s.status.bindingUuids, markers.marker.Marked()));
      }
      return Err(read.error), [], [], 0;
    }
    var first := MatchBindings(rules, ours, false);
    var second := MatchBindings(rules, others, true);
    MatchesExist(rules, target, server.bindings, keys, ours, others, first, second);
    if old(Quiet(markers, s, target, rules)) {
      SettledMatches(rules, target, server.bindings, s.status.bindingUuids, old(markers.marker.Marked()), ours, others, first);
    }
    ghost var marked := markers.marker.Marked();
    var adopted, plan := Adopt(markers, first, second);
    if old(markers.Exact()) {
      KeysAfterAdopting(target, server.bindings, keys, ours, others, first, second, plan, s.status.bindingUuids,
                        old(markers.marker.Marked()), marked, markers.marker.Marked());
    }
    if old(markers.Exact()) {
      PlanOnTarget(target, server.bindings, keys, ours, others, first, second, plan);
      OnlyBindingMarks(foreign, marked, markers.marker.Marked(), PlannedKeys(plan));
      OtherMarksChain(foreign, old(markers.marker.Marked()), marked, markers.marker.Marked());
    }
    if adopted.Err? {
      if old(markers.Exact()) {
        PassWhileAdopting(rules, target, server.bindings, keys, ours, others, first, second,
                          ManagedKeys(s.status.bindingUuids, markers.marker.Marked()));
      }
      return Err(adopted.error), [], [], 0;
    }
    var pass := Pass(target, rules, plan, server.bindings, keys, |old(server.history)|,
                     OrdersFit(server.bindings, target, |rules|));
    PassFits(pass, ours, others, first, second);
    if old(markers.Exact()) {
      PlanIsMarked(pass, ours, others, first, second, s.status.bindingUuids, old(markers.marker.Marked()), marked,
                   markers.marker.Marked());
      KeysBeforeWriting(pass, others, first, second, s.status.bindingUuids, markers.marker.Marked());
    }
    if old(Quiet(markers, s, target, rules)) {
      SettledPass(pass, first, second);
    }
    return Ok(pass), ours, others, maxOrder;
  }

  /** Marking what is recorded makes nothing managed that was not. */
  lemma KeysAfterReading(recorded: seq<Key>, marked0: set<Object>, marked1: set<Object>)
    requires marked0 <= marked1
    requires forall o :: o in marked1 ==> o in marked0 || (o.model.BindingModel? && o.pk in Elements(recorded))
    ensures ManagedKeys(recorded, marked1) == ManagedKeys(recorded, marked0)
  {
    forall k ensures k in ManagedKeys(recorded, marked1) <==> k in ManagedKeys(recorded, marked0) {
      ManagedKey(recorded, marked0, k);
      ManagedKey(recorded, marked1, k);
    }
  }

  lemma KeysAfterAdopting(target: Key, bindings: map<Key, Binding>, keys: set<Key>, ours: seq<Binding>, others: seq<Binding>,
                          first: seq<Option<Binding>>, second: seq<Option<Binding>>, plan: seq<Option<Binding>>,
                          recorded: seq<Key>, marked0: set<Object>, marked1: set<Object>, marked2: set<Object>)
    requires Split(target, bindings, keys, ours, others) && keys == ManagedKeys(recorded, marked0) && |plan| == |first| == |second|
    requires forall i :: 0 <= i < |first| && first[i].Some? ==> first[i].value in ours
    requires forall i :: 0 <= i < |plan| ==> plan[i] == first[i] || (first[i].None? && plan[i] == second[i])
    requires marked0 <= marked1 <= marked2
    requires forall o :: o in marked1 ==> o in marked0 || (o.model.BindingModel? && o.pk in Elements(recorded))
    requires forall o :: o in marked2 ==> o in marked1 || (o.model.BindingModel? && o.pk in PlannedKeys(plan))
    ensures KeysWhileAdopting(keys, first, second, ManagedKeys(recorded, marked2))
  {
    var keysNow := ManagedKeys(recorded, marked2);
    forall k | k in keysNow && k !in keys
      ensures exists i :: 0 <= i < |first| && first[i].None? && second[i].Some? && second[i].value.pk == k
    {
      ManagedKey(recorded, marked0, k);
      ManagedKey(recorded, marked2, k);
      var i :| 0 <= i < |plan| && plan[i].Some? && plan[i].value.pk == k;
      assert first[i].None?;
    }
  }

  /** Before the first write, what is managed is what was, and the plan. */
  lemma KeysBeforeWriting(pass: Pass, others: seq<Binding>, first: seq<Option<Binding>>, second: seq<Option<Binding>>,
                          recorded: seq<Key>, marked: set<Object>)
    requires Combined(first, second, pass.plan) && KeysWhileAdopting(pass.managed, first, second, ManagedKeys(recorded, marked))
    requires PlanMarked(pass, others, marked)
    ensures KeysWhileWriting(pass.first, pass.managed, pass.plan, [], ManagedKeys(recorded, marked))
  {
    var keysNow := ManagedKeys(recorded, marked);
    forall k | k in PlannedKeys(pass.plan) ensures k in keysNow {
      ManagedKey(recorded, marked, k);
    }
    forall k | k in keysNow && k !in pass.managed ensures k in PlannedKeys(pass.plan) {
      var i :| 0 <= i < |first| && first[i].None? && second[i].Some? && second[i].value.pk == k;
      assert pass.plan[i] == second[i];
    }
  }

  lemma SettledPass(pass: Pass, first: seq<Option<Binding>>, second: seq<Option<Binding>>)
    requires pass.Valid() && Combined(first, second, pass.plan) && |first| == |pass.rules|
    requires forall i :: 0 <= i < |pass.rules| ==>
               first[i].Some? && DiffBinding(DesiredBinding(pass.target, pass.rules[i]), first[i].value).None?
    ensures pass.plan == first && NothingToWrite(pass)
  {
    hide DiffBinding, DesiredBinding, PlanFits;
    assert forall i :: 0 <= i < |first| ==> pass.plan[i] == first[i];
  }

  lemma ListKeys(server: Authentik)
    requires server.Valid()
    ensures ValidBindings(server.bindings, server.sequence) && ValidBindingKeys(server.bindings)
  {}

  /** Every planned Binding is marked, and of the unmanaged ones no other. */
  ghost predicate PlanMarked(pass: Pass, others: seq<Binding>, marked: set<Object>) {
    && (forall i :: 0 <= i < |pass.plan| && pass.plan[i].Some? ==> BindingObject(pass.plan[i].value.pk) in marked)
    && (forall b :: b in others && BindingObject(b.pk) in marked ==> b.pk in PlannedKeys(pass.plan))
  }

  lemma MatchesExist(rules: seq<Rule>, target: Key, bindings: map<Key, Binding>, keys: set<Key>, ours: seq<Binding>,
                     others: seq<Binding>, first: seq<Option<Binding>>, second: seq<Option<Binding>>)
    requires ValidRules(rules) && Split(target, bindings, keys, ours, others)
    requires BestAssignment(rules, ours, false, first) && BestAssignment(rules, others, true, second)
    ensures |first| == |second| == |rules|
    ensures forall i :: 0 <= i < |second| && second[i].Some? ==> second[i].value.pk in bindings
    ensures forall i :: 0 <= i < |first| && first[i].Some? ==> first[i].value in ours
    ensures forall i :: 0 <= i < |second| && second[i].Some? ==> second[i].value in others
  {}

  /** What is planned is on the target. */
  lemma PlanOnTarget(target: Key, bindings: map<Key, Binding>, keys: set<Key>, ours: seq<Binding>, others: seq<Binding>,
                     first: seq<Option<Binding>>, second: seq<Option<Binding>>, plan: seq<Option<Binding>>)
    requires Split(target, bindings, keys, ours, others) && |plan| == |first| == |second|
    requires forall i :: 0 <= i < |first| && first[i].Some? ==> first[i].value in ours
    requires forall i :: 0 <= i < |second| && second[i].Some? ==> second[i].value in others
    requires forall i :: 0 <= i < |plan| ==> plan[i] == first[i] || (first[i].None? && plan[i] == second[i])
    ensures PlannedKeys(plan) !! Foreign(bindings, target)
  {}

  lemma PlanIsMarked(pass: Pass, ours: seq<Binding>, others: seq<Binding>, first: seq<Option<Binding>>,
                     second: seq<Option<Binding>>, recorded: seq<Key>, marked0: set<Object>, marked1: set<Object>,
                     marked2: set<Object>)
    requires |first| == |second| && Combined(first, second, pass.plan)
    requires Split(pass.target, pass.first, pass.managed, ours, others) && pass.managed == ManagedKeys(recorded, marked0)
    requires forall i :: 0 <= i < |first| && first[i].Some? ==> first[i].value in ours
    requires forall b :: b in ours ==> BindingObject(b.pk) in marked1
    requires forall o :: o in marked1 ==> o in marked0 || (o.model.BindingModel? && o.pk in Elements(recorded))
    requires marked1 <= marked2 && forall o :: o in marked2 ==>
               o in marked1 || (o.model.BindingModel? && o.pk in PlannedKeys(pass.plan))
    requires forall i :: 0 <= i < |pass.plan| && pass.plan[i].Some? && first[i].None? ==>
               BindingObject(pass.plan[i].value.pk) in marked2
    ensures PlanMarked(pass, others, marked2)
  {
    forall b | b in others && BindingObject(b.pk) in marked2 ensures b.pk in PlannedKeys(pass.plan) {
      ManagedKey(recorded, marked0, b.pk);
    }
  }
}
