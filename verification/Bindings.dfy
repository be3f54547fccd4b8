/** reconcileBindings (internal/controller/bindings.go): adopt, create, and repair first, delete afterwards. */
module Bindings {
  import opened Base
  import opened Api
  import opened Patch
  import opened Matching
  import opened Server
  import opened Ownership
  import opened Desired
  import opened BindingPlan
  import opened BindingAttempts
  import opened BindingHistory
  import opened BindingWrites
  import opened BindingSteps
  import opened Resources

  // ---------- the outcome of a pass, wherever it stopped ----------

  /** The tally of every class changed as in one attempt, and the Bindings created are the ones that are new. */
  ghost predicate Counted(rules: seq<Rule>, target: Key, first: map<Key, Binding>, keys: set<Key>, now: map<Key, Binding>,
                          keysNow: set<Key>, history: seq<Write>, start: nat, finished: bool)
    requires ValidRules(rules)
  {
    Tallied(rules, target, first, keys, now, keysNow, finished) && Creations(history, start) == |now.Keys - first.Keys|
  }

  /** The tallies for a retry with the status written last, and for one that writes the status first. */
  ghost predicate CountedFor(rules: seq<Rule>, target: Key, first: map<Key, Binding>, keys: set<Key>, now: map<Key, Binding>,
                             base: seq<Key>, status: seq<Key>, marked: set<Object>, history: seq<Write>, start: nat,
                             finished: bool)
    requires ValidRules(rules)
  {
    && Counted(rules, target, first, keys, now, ManagedKeys(base, marked), history, start, finished)
    && Counted(rules, target, first, keys, now, ManagedKeys(status, marked), history, start, finished)
  }

  /** Bindings of other targets are not touched. */
  ghost predicate OthersUntouched(before: map<Key, Binding>, after: map<Key, Binding>, target: Key) {
    && (forall k :: k in before && before[k].target != target ==> k in after && after[k] == before[k])
    && (forall k :: k in after && after[k].target != target ==> k in before && before[k] == after[k])
  }

  /** Without prune, a Binding that the operator does not manage stays, and grants or denies what it did. */
  ghost predicate UnmanagedStay(prune: bool, before: map<Key, Binding>, managed: set<Key>, after: map<Key, Binding>) {
    !prune ==>
      forall k :: k in before && k !in managed ==>
        k in after && after[k].target == before[k].target && BindingClass(after[k]) == BindingClass(before[k])
  }

  lemma UnmanagedUntouched(prune: bool, bindings: map<Key, Binding>, managed: set<Key>)
    ensures UnmanagedStay(prune, bindings, managed, bindings)
  {}

  lemma UnmanagedWhileWriting(pass: Pass, kept: seq<Key>, now: map<Key, Binding>, prune: bool)
    requires pass.Valid() && Progress(pass.rules, pass.target, pass.first, pass.plan, kept, now)
    ensures UnmanagedStay(prune, pass.first, pass.managed, now)
  {
    forall k | k in pass.first && k !in pass.managed
      ensures k in now && now[k].target == pass.first[k].target && BindingClass(now[k]) == BindingClass(pass.first[k])
    {
      if k in kept {
        var i :| 0 <= i < |kept| && kept[i] == k;
        assert pass.plan[i].Some? && Exact(pass.rules, pass.plan, i);
      }
    }
  }

  lemma UnmanagedAfterStage(pass: Pass, kept: seq<Key>, now: map<Key, Binding>, history: seq<Write>, prune: bool)
    requires pass.Valid() && Stage(pass, kept, now, history)
    ensures UnmanagedStay(prune, pass.first, pass.managed, now)
  {
    hide Progress, WritePhase, Written, UnmanagedStay, PlanFits;
    UnmanagedWhileWriting(pass, kept, now, prune);
  }

  /** What is deleted was managed, unless the spec asks to prune. */
  lemma UnmanagedAfterCleanup(pass: Pass, kept: seq<Key>, middle: map<Key, Binding>, mid: nat, dropped: set<Key>,
                              now: map<Key, Binding>, history: seq<Write>, ours: seq<Binding>, others: seq<Binding>,
                              prune: bool)
    requires ValidRules(pass.rules) && Planned(pass, ours, others) && Cleanup(pass, kept, middle, mid, dropped, now, history)
    requires forall k :: k in dropped ==> exists b :: (b in ours || (prune && b in others)) && b.pk == k
    ensures UnmanagedStay(prune, pass.first, pass.managed, now)
  {
    CleanupProgress(pass, kept, middle, mid, dropped, now, history);
    hide Progress, Cleanup, PlanFits, Counts;
    UnmanagedWhileWriting(pass, kept, middle, prune);
  }

  /** What every way out of a pass guarantees. */
  ghost predicate Outcome(rules: seq<Rule>, target: Key, first: map<Key, Binding>, now: map<Key, Binding>, history: seq<Write>,
                          start: nat)
    requires ValidRules(rules)
  {
    && SafeRun(history, start, first, target, rules) && SingleSubjects(now, target)
    && Before(history, start, first, |history|) == now
    && OthersUntouched(first, now, target) && OnlyBindingCalls(history, start)
    && (OrdersFit(first, target, |rules|) ==> NoneRefused(history, start))
  }

  lemma OutcomeAtStart(rules: seq<Rule>, target: Key, first: map<Key, Binding>, outposts: map<Key, Outpost>,
                       history: seq<Write>, longer: seq<Write>)
    requires ValidRules(rules) && SingleSubjects(first, target) && OnlyMarkerWrites(history, longer, first, outposts)
    ensures Outcome(rules, target, first, first, longer, |history|) && Creations(longer, |history|) == 0
  {
    StartWritePhase(history, first, target, rules);
    ExtendByMarkers(history, longer, |history|, first, first, outposts, target, rules);
    WritesAreSafe(longer, |history|, first, first, target, rules);
    NoCreations(history, longer, |history|);
  }

  lemma OutcomeWhileWriting(pass: Pass, kept: seq<Key>, now: map<Key, Binding>, history: seq<Write>)
    requires pass.Valid() && Stage(pass, kept, now, history) && pass.room == OrdersFit(pass.first, pass.target, |pass.rules|)
    requires SingleSubjects(pass.first, pass.target)
    ensures Outcome(pass.rules, pass.target, pass.first, now, history, pass.start)
  {
    WritesAreSafe(history, pass.start, pass.first, now, pass.target, pass.rules);
    ProgressLeavesOthers(pass, kept, now);
  }

  lemma ProgressLeavesOthers(pass: Pass, kept: seq<Key>, now: map<Key, Binding>)
    requires pass.Valid() && Progress(pass.rules, pass.target, pass.first, pass.plan, kept, now)
    ensures OthersUntouched(pass.first, now, pass.target)
  {
    hide BindingClass, RuleClass, ObservedSubject, ValidRule, PlanFits;
    assert forall i :: 0 <= i < |kept| ==> Represents(now[kept[i]], pass.target, pass.rules[i]);
    assert forall k :: k in kept ==> now[k].target == pass.target;
  }

  lemma CountedWhileWriting(pass: Pass, ours: seq<Binding>, others: seq<Binding>, kept: seq<Key>, now: map<Key, Binding>,
                            history: seq<Write>, keysNow: set<Key>)
    requires ValidRules(pass.rules) && Planned(pass, ours, others) && Stage(pass, kept, now, history)
    requires ValidBindingKeys(now) && KeysWhileWriting(pass.first, pass.managed, pass.plan, kept, keysNow)
    ensures Counted(pass.rules, pass.target, pass.first, pass.managed, now, keysNow, history, pass.start, false)
  {
    hide Progress, PlanFits, WritePhase, Split, Counts, KeysWhileWriting, ValidBindingKeys, Written, NoneRefused, Tallied;
    StageKeepsRules(pass, kept, now, history);
    PassWhileWriting(pass.rules, pass.target, pass.first, pass.managed, pass.plan, kept, now, keysNow);
  }

  lemma OutcomeOfCleanup(pass: Pass, kept: seq<Key>, middle: map<Key, Binding>, mid: nat, dropped: set<Key>,
                         now: map<Key, Binding>, history: seq<Write>, ours: seq<Binding>, others: seq<Binding>)
    requires ValidRules(pass.rules) && Planned(pass, ours, others)
    requires Cleanup(pass, kept, middle, mid, dropped, now, history)
             && pass.room == OrdersFit(pass.first, pass.target, |pass.rules|)
    requires forall k :: k in dropped ==> exists b :: (b in ours || b in others) && b.pk == k
    ensures Outcome(pass.rules, pass.target, pass.first, now, history, pass.start)
  {
    PhasesAreSafe(history, pass.start, mid, pass.first, middle, now, pass.target, pass.rules);
    ProgressLeavesOthers(pass, kept, middle);
    forall k | k in middle && middle[k].target != pass.target ensures k !in dropped {}
  }

  lemma CountedAfterCleanup(pass: Pass, kept: seq<Key>, middle: map<Key, Binding>, mid: nat, dropped: set<Key>,
                            now: map<Key, Binding>, history: seq<Write>, ours: seq<Binding>, others: seq<Binding>,
                            keysNow: set<Key>)
    requires ValidRules(pass.rules) && Planned(pass, ours, others)
    requires Cleanup(pass, kept, middle, mid, dropped, now, history)
    requires ValidBindingKeys(now) && forall k :: k in kept ==> k in keysNow
    ensures Counted(pass.rules, pass.target, pass.first, pass.managed, now, keysNow, history, pass.start, true)
  {
    CleanupProgress(pass, kept, middle, mid, dropped, now, history);
    hide Progress, PlanFits, Split, Counts, ValidBindingKeys, Cleanup, CreatedRules, Creations, Tallied;
    PassWritten(pass.rules, pass.target, pass.first, pass.managed, pass.plan, kept, middle, dropped, keysNow);
  }

  lemma CleanupProgress(pass: Pass, kept: seq<Key>, middle: map<Key, Binding>, mid: nat, dropped: set<Key>,
                        now: map<Key, Binding>, history: seq<Write>)
    requires pass.Valid() && Cleanup(pass, kept, middle, mid, dropped, now, history)
    ensures now == middle - dropped && (forall k :: k in kept ==> k !in dropped) && |kept| == |pass.rules| == |pass.plan|
    ensures Progress(pass.rules, pass.target, pass.first, pass.plan, kept, middle)
    ensures Creations(history, pass.start) == |CreatedRules(pass.plan, |kept|)|
  {}

  /** The markers after the write loop: those of the plan and of every Binding kept. */
  ghost predicate WrittenMarks(pass: Pass, others: seq<Binding>, kept: seq<Key>, planned: set<Object>, written: set<Object>) {
    && PlanMarked(pass, others, planned)
    && (forall o :: o in written ==> o in planned || (o.model.BindingModel? && o.pk in kept))
    && (forall i :: 0 <= i < |kept| ==> BindingObject(kept[i]) in written)
  }

  /** What a successful pass leaves on the target is kept, unless it is neither managed nor pruned. */
  lemma LeftIsKept(pass: Pass, kept: seq<Key>, middle: map<Key, Binding>, dropped: set<Key>, ours: seq<Binding>,
                   others: seq<Binding>, prune: bool, planned: set<Object>, written: set<Object>, k: Key)
    requires ValidRules(pass.rules) && pass.Valid() && |pass.plan| == |pass.rules| == |kept|
    requires Split(pass.target, pass.first, pass.managed, ours, others) && ValidBindingKeys(pass.first)
    requires Progress(pass.rules, pass.target, pass.first, pass.plan, kept, middle)
    requires forall b :: b in ours ==> b.pk in kept || b.pk in dropped
    requires prune ==> forall b :: b in others ==> b.pk in kept || b.pk in dropped
    requires PlanMarked(pass, others, planned)
    requires forall o :: o in written ==> o in planned || (o.model.BindingModel? && o.pk in kept)
    requires k in middle && k !in dropped && middle[k].target == pass.target && (prune || BindingObject(k) in written)
    ensures k in kept
  {
    hide BindingClass, RuleClass, ObservedSubject, ValidRule, PlanFits, RuleSubject;
    forall p | p in PlannedKeys(pass.plan) ensures p in kept {
      var i :| 0 <= i < |pass.plan| && pass.plan[i].Some? && pass.plan[i].value.pk == p;
      assert kept[i] == p;
    }
  }

  /** The end of a successful pass: the kept Bindings are all that is managed, and with prune all there is. */
  lemma CleanupSettles(pass: Pass, kept: seq<Key>, middle: map<Key, Binding>, mid: nat, dropped: set<Key>,
                       now: map<Key, Binding>, history: seq<Write>, ours: seq<Binding>, others: seq<Binding>, prune: bool,
                       planned: set<Object>, written: set<Object>, marksDropped: set<Key>, marked: set<Object>)
    requires ValidRules(pass.rules) && Planned(pass, ours, others) && ValidBindingKeys(pass.first)
    requires Cleanup(pass, kept, middle, mid, dropped, now, history)
    requires forall b :: b in ours ==> b.pk in kept || b.pk in dropped
    requires prune ==> forall b :: b in others ==> b.pk in kept || b.pk in dropped
    requires WrittenMarks(pass, others, kept, planned, written) && MarksWithout(written, marked, marksDropped, true)
    requires forall k :: k in kept ==> k !in marksDropped
    ensures Settled(pass.rules, pass.target, prune, now, kept, marked)
  {
    hide DiffBinding, DesiredBinding, SingleSubject, RuleClass, BindingClass, ObservedSubject, RuleSubject, PlanFits, WritePhase,
      DeletePhase, SingleSubjects, ValidRule, Split, PlanMarked, Represents, KeepsRules, AllRepresented, Represented;
    forall k | k in now && now[k].target == pass.target && (prune || BindingObject(k) in marked) ensures k in kept {
      LeftIsKept(pass, kept, middle, dropped, ours, others, prune, planned, written, k);
    }
  }

  // ---------- the whole pass ----------

  lemma ManagedGrow(recorded: seq<Key>, marked: set<Object>, recordedNow: seq<Key>, markedNow: set<Object>)
    requires Elements(recorded) <= Elements(recordedNow) && marked <= markedNow
    ensures ManagedKeys(recorded, marked) <= ManagedKeys(recordedNow, markedNow)
  {}

  /** The unmanaged Bindings that no rule adopted. */
  method Remaining(others: seq<Binding>, kept: seq<Key>) returns (remaining: seq<Binding>)
    ensures forall b :: b in remaining <==> b in others && b.pk !in kept
  {
    remaining := [];
    for i := 0 to |others|
      invariant forall b :: b in remaining <==> b in others[..i] && b.pk !in kept
    {
      assert others[..i + 1] == others[..i] + [others[i]];
      if others[i].pk !in kept {
        remaining := remaining + [others[i]];
      }
    }
    assert others[..|others|] == others;
  }

  /** Deletes the managed Bindings that no rule needs, and then records the kept ones. */
  method DeleteAndRecord(markers: MarkerCache, s: Resource, pass: Pass, ours: seq<Binding>, kept: seq<Key>,
                         ghost middle: map<Key, Binding>, ghost mid: nat)
    returns (res: Result<()>, ghost dropped: set<Key>)
    requires markers.marker.server.Valid() && pass.Valid()
    requires Cleanup(pass, kept, middle, mid, {}, markers.marker.server.bindings, markers.marker.server.history)
    requires forall b :: b in ours ==> b.pk !in Foreign(pass.first, pass.target)
    modifies s, markers, markers.marker, markers.clock, markers.marker.server`bindings, markers.marker.server`roles,
             markers.marker.server`sequence, markers.marker.server`grants, markers.marker.server`history
    ensures markers.marker.server.Valid()
    ensures Cleanup(pass, kept, middle, mid, dropped, markers.marker.server.bindings, markers.marker.server.history)
    ensures res.Ok? ==> forall b :: b in ours ==> b.pk in kept || b.pk in dropped
    ensures forall k :: k in dropped ==> k !in kept && exists b :: b in ours && b.pk == k
    ensures old(markers.Exact()) ==>
              && markers.Exact() && (res.Err? ==> res.error == Unavailable)
              && OtherMarks(Foreign(pass.first, pass.target), old(markers.marker.Marked()), markers.marker.Marked())
              && (res.Ok? ==> MarksWithout(old(markers.marker.Marked()), markers.marker.Marked(), dropped, true))
              && (forall k :: k in kept && BindingObject(k) in old(markers.marker.Marked()) ==>
                  BindingObject(k) in markers.marker.Marked())
    ensures (forall b :: b in ours ==> b.pk in kept) ==>
              dropped == {} && markers.marker.server.history == old(markers.marker.server.history)
    ensures old(markers.marker.server.history) <= markers.marker.server.history
    ensures s.status == old(s.status).(bindingUuids := s.status.bindingUuids)
    ensures res.Ok? ==> s.status.bindingUuids == kept == s.base.bindingUuids
    ensures s.base == old(s.base) || s.base == s.status
  {
    hide ValidBindings, ValidApplications, ValidLinks, ValidProviders, ValidOutposts, ValidRoles, MarkedBy, Cleanup, Pass.Valid,
      MarksWithout;
    var server := markers.marker.server;
    res, dropped := DeleteUnneeded(markers, pass, ours, kept, middle, mid);
    CleanupKeeps(pass, kept, middle, mid, dropped, server.bindings, server.history);
    if old(markers.Exact()) {
      KeepsOtherMarks(Foreign(pass.first, pass.target), old(markers.marker.Marked()), markers.marker.Marked(), dropped, res.Ok?);
    }
    if res.Err? {
      return;
    }
    s.status := s.status.(bindingUuids := kept);
    res := s.PatchStatus();
  }

  lemma CleanupKeeps(pass: Pass, kept: seq<Key>, middle: map<Key, Binding>, mid: nat, dropped: set<Key>, now: map<Key, Binding>,
                     history: seq<Write>)
    requires pass.Valid() && Cleanup(pass, kept, middle, mid, dropped, now, history)
    ensures forall k :: k in dropped ==> k !in kept
  {}

  /**
   The end of a pass: one recorded, marked, and conforming Binding per rule; every other Binding of the target is
   unmanaged, reported, and as it was before, and with prune there is none.
   */
  ghost predicate Finished(rules: seq<Rule>, target: Key, prune: bool, first: map<Key, Binding>, now: map<Key, Binding>,
                           status: Status, base: Status, marked: set<Object>)
    requires ValidRules(rules)
  {
    && Settled(rules, target, prune, now, status.bindingUuids, marked)
    && base.bindingUuids == status.bindingUuids
    && (forall k :: k in now && now[k].target == target && k !in status.bindingUuids ==> k in first && now[k] == first[k])
    && Elements(status.unmanagedBindings) == set k | k in now && now[k].target == target && k !in status.bindingUuids
  }

  /** The unmanaged Bindings that are kept out of the rules survive exactly when they are not pruned. */
  lemma LeftOver(pass: Pass, kept: seq<Key>, middle: map<Key, Binding>, mid: nat, dropped: set<Key>, pruned: set<Key>,
                 now: map<Key, Binding>, history: seq<Write>, ours: seq<Binding>, others: seq<Binding>, prune: bool)
    requires ValidRules(pass.rules) && Planned(pass, ours, others) && ValidBindingKeys(pass.first)
    requires Cleanup(pass, kept, middle, mid, dropped + pruned, now, history)
    requires forall b :: b in ours ==> b.pk in kept || b.pk in dropped
    requires forall k :: k in dropped ==> exists b :: b in ours && b.pk == k
    requires forall k :: k in pruned ==> prune
    requires prune ==> forall b :: b in others ==> b.pk in kept || b.pk in pruned
    ensures (set b | b in others && !prune && b.pk !in kept :: b.pk) == set k | k in now && now[k].target == pass.target
            && k !in kept
    ensures forall k :: k in now && now[k].target == pass.target && k !in kept ==> k in pass.first && now[k] == pass.first[k]
  {
    hide DiffBinding, DesiredBinding, SingleSubject, RuleClass, BindingClass, ObservedSubject, RuleSubject, PlanFits, WritePhase,
      DeletePhase, SingleSubjects, ValidRule, Written;
    forall k | k in now && now[k].target == pass.target && k !in kept
      ensures k in pass.first && now[k] == pass.first[k] && !prune && exists b :: b in others && b.pk == k
    {
      assert k in middle && k in pass.first && middle[k] == pass.first[k];
      var b := pass.first[k];
      assert b in ours || b in others;
    }
    forall b | b in others && !prune && b.pk !in kept
      ensures b.pk in now && now[b.pk].target == pass.target
    {
      assert b.pk in middle && middle[b.pk] == b && b.pk !in pruned;
    }
  }

  /** The end of a pass: the unmanaged Bindings, after the deletions were recorded. */
  method FinishUnmanaged(server: Authentik, s: Resource, pass: Pass, ours: seq<Binding>, others: seq<Binding>, kept: seq<Key>,
                         prune: bool, public: bool, ghost exact: bool, ghost planned: set<Object>, ghost written: set<Object>,
                         ghost marked: set<Object>, ghost middle: map<Key, Binding>, ghost mid: nat, ghost dropped: set<Key>)
    returns (res: Result<()>)
    requires server.Valid() && ValidRules(pass.rules) && Planned(pass, ours, others) && ValidBindingKeys(pass.first)
    requires pass.room == OrdersFit(pass.first, pass.target, |pass.rules|)
    requires Cleanup(pass, kept, middle, mid, dropped, server.bindings, server.history)
    requires forall b :: b in ours ==> b.pk in kept || b.pk in dropped
    requires forall k :: k in dropped ==> k !in kept && exists b :: b in ours && b.pk == k
    requires s.status.bindingUuids == kept == s.base.bindingUuids
    requires exact ==>
               && WrittenMarks(pass, others, kept, planned, written) && MarksWithout(written, marked, dropped, true)
               && forall k :: k in kept ==> k in ManagedKeys(kept, marked)
    modifies s`status, server`bindings, server`history
    ensures server.Valid()
    ensures Outcome(pass.rules, pass.target, pass.first, server.bindings, server.history, pass.start)
    ensures UnmanagedStay(prune, pass.first, pass.managed, server.bindings)
    ensures exact ==>
              && CountedFor(pass.rules, pass.target, pass.first, pass.managed, server.bindings, kept, kept, marked, server.history,
                            pass.start, true)
              && (res.Ok? || res.error.Stop? ==>
                    Finished(pass.rules, pass.target, prune, pass.first, server.bindings, s.status, s.base, marked))
    ensures res.Err? ==>
              || res.error == Unavailable
              || (res.error == Stop(UnmanagedBindings) && public && s.status.unmanagedBindings != [])
    ensures res.Ok? ==> !public || s.status.unmanagedBindings == []
    ensures s.status == old(s.status).(unmanagedBindings := s.status.unmanagedBindings)
    ensures old(server.history) <= server.history
    ensures (prune ==> forall b :: b in others ==> b.pk in kept) ==> server.history == old(server.history)
  {
    hide ValidBindings, ValidApplications, ValidLinks, ValidProviders, ValidOutposts, ValidRoles, Cleanup, Pass.Valid, Planned,
      Outcome, CountedFor, Settled, Finished, WrittenMarks, MarksWithout, ManagedKeys, OrdersFit, ValidRules, ValidBindingKeys,
      UnmanagedStay;
    PlannedValid(pass, ours, others);
    var remaining := Remaining(others, kept);
    assert remaining != [] ==> remaining[0] in remaining;
    ghost var pruned;
    res, pruned := HandleUnmanaged(server, s, pass, kept, remaining, prune, public, middle, mid, dropped);
    ListKeys(server);
    AfterCleanup(pass, kept, middle, mid, dropped + pruned, server.bindings, server.history, ours, others, kept, kept, marked,
                 exact, prune);
    if exact && (res.Ok? || res.error.Stop?) {
      PassFinished(pass, kept, middle, mid, dropped, pruned, server.bindings, server.history, ours, others, prune, planned, written,
                   marked, s.status, s.base);
    }
  }

  /** What follows the write loop: deletes what no rule needs, records the result, and handles what is unmanaged. */
  method FinishPass(markers: MarkerCache, s: Resource, pass: Pass, ours: seq<Binding>, others: seq<Binding>, kept: seq<Key>,
                    prune: bool, public: bool, ghost exact: bool, ghost planned: set<Object>)
    returns (res: Result<()>)
    requires markers.marker.server.Valid() && ValidRules(pass.rules) && Planned(pass, ours, others) && ValidBindingKeys(pass.first)
    requires Stage(pass, kept, markers.marker.server.bindings, markers.marker.server.history) && |kept| == |pass.rules|
    requires pass.room == OrdersFit(pass.first, pass.target, |pass.rules|)
    requires exact ==> markers.Exact() && WrittenMarks(pass, others, kept, planned, markers.marker.Marked())
    modifies s, markers, markers.marker, markers.clock, markers.marker.server`bindings, markers.marker.server`roles,
             markers.marker.server`sequence, markers.marker.server`grants, markers.marker.server`history
    ensures markers.marker.server.Valid()
    ensures Outcome(pass.rules, pass.target, pass.first, markers.marker.server.bindings, markers.marker.server.history, pass.start)
    ensures UnmanagedStay(prune, pass.first, pass.managed, markers.marker.server.bindings)
    ensures exact ==>
              && CountedFor(pass.rules, pass.target, pass.first, pass.managed, markers.marker.server.bindings, s.base.bindingUuids,
                            s.status.bindingUuids, markers.marker.Marked(), markers.marker.server.history, pass.start, true)
              && markers.Exact() && OtherMarks(Foreign(pass.first, pass.target), old(markers.marker.Marked()),
                                               markers.marker.Marked())
              && (res.Ok? || res.error.Stop? ==>
                    Finished(pass.rules, pass.target, prune, pass.first, markers.marker.server.bindings, s.status, s.base,
                             markers.marker.Marked()))
              && (res.Err? ==>
                    || res.error == Unavailable
                    || (res.error == Stop(UnmanagedBindings) && public && s.status.unmanagedBindings != []))
              && (res.Ok? ==> !public || s.status.unmanagedBindings == [])
    ensures s.status == old(s.status).(bindingUuids := s.status.bindingUuids, unmanagedBindings := s.status.unmanagedBindings)
    ensures BesideBindings(s.base) == BesideBindings(old(s.base)) || BesideBindings(s.base) == BesideBindings(s.status)
    ensures old(markers.marker.server.history) <= markers.marker.server.history
    ensures (forall b :: b in ours ==> b.pk in kept) && (prune ==> forall b :: b in others ==> b.pk in kept) ==>
              markers.marker.server.history == old(markers.marker.server.history)
  {
    hide ValidBindings, ValidApplications, ValidLinks, ValidProviders, ValidOutposts, ValidRoles, MarkedBy, Cleanup, Pass.Valid,
      Planned, Stage, Outcome, CountedFor, Settled, Finished, WrittenMarks, MarksWithout, ManagedKeys, OrdersFit, ValidRules,
      ValidBindingKeys, MarkerCache.Exact, OtherMarks, UnmanagedStay;
    var server := markers.marker.server;
    ghost var middle, mid, written := server.bindings, |server.history|, markers.marker.Marked();
    PlannedValid(pass, ours, others);
    CleanupStarts(pass, kept, middle, server.history);
    ghost var dropped;
    res, dropped := DeleteAndRecord(markers, s, pass, ours, kept, middle, mid);
    ListKeys(server);
    if exact {
      KeptAreManaged(pass, others, kept, planned, written, markers.marker.Marked(), s.base.bindingUuids);
      KeptAreManaged(pass, others, kept, planned, written, markers.marker.Marked(), s.status.bindingUuids);
    }
    if res.Err? {
      AfterCleanup(pass, kept, middle, mid, dropped, server.bindings, server.history, ours, others, s.base.bindingUuids,
                   s.status.bindingUuids,
                   markers.marker.Marked(), exact, prune);
      return;
    }
    res := FinishUnmanaged(server, s, pass, ours, others, kept, prune, public, exact, planned, written, markers.marker.Marked(),
                           middle, mid, dropped);
  }

  lemma PassFinished(pass: Pass, kept: seq<Key>, middle: map<Key, Binding>, mid: nat, dropped: set<Key>, pruned: set<Key>,
                     now: map<Key, Binding>, history: seq<Write>, ours: seq<Binding>, others: seq<Binding>, prune: bool,
                     planned: set<Object>, written: set<Object>, marked: set<Object>, status: Status, base: Status)
    requires ValidRules(pass.rules) && Planned(pass, ours, others) && ValidBindingKeys(pass.first)
    requires Cleanup(pass, kept, middle, mid, dropped + pruned, now, history)
    requires forall b :: b in ours ==> b.pk in kept || b.pk in dropped
    requires forall k :: k in dropped ==> k !in kept && exists b :: b in ours && b.pk == k
    requires forall k :: k in pruned ==> prune
    requires prune ==> forall b :: b in others ==> b.pk in kept || b.pk in pruned
    requires WrittenMarks(pass, others, kept, planned, written) && MarksWithout(written, marked, dropped, true)
    requires status.bindingUuids == kept == base.bindingUuids
    requires Elements(status.unmanagedBindings) == (set b | b in others && !prune && b.pk !in kept :: b.pk)
    ensures Finished(pass.rules, pass.target, prune, pass.first, now, status, base, marked)
  {
    hide Cleanup, Planned, Settled, WrittenMarks, MarksWithout, ValidBindingKeys;
    CleanupSettles(pass, kept, middle, mid, dropped + pruned, now, history, ours, others, prune, planned, written, dropped, marked);
    LeftOver(pass, kept, middle, mid, dropped, pruned, now, history, ours, others, prune);
  }

  lemma PlannedValid(pass: Pass, ours: seq<Binding>, others: seq<Binding>)
    requires ValidRules(pass.rules) && Planned(pass, ours, others)
    ensures pass.Valid() && |pass.plan| == |pass.rules|
    ensures forall b :: b in ours || b in others ==> b.pk !in Foreign(pass.first, pass.target)
  {}

  lemma KeptNotForeign(pass: Pass, kept: seq<Key>, now: map<Key, Binding>, history: seq<Write>)
    requires pass.Valid() && Stage(pass, kept, now, history)
    ensures Elements(kept) !! Foreign(pass.first, pass.target)
  {
    hide BindingClass, RuleClass, ObservedSubject, RuleSubject, ValidRule, PlanFits, WritePhase, Written;
  }

  lemma KeepsOtherMarks(foreign: set<Key>, before: set<Object>, after: set<Object>, dropped: set<Key>, complete: bool)
    requires MarksWithout(before, after, dropped, complete) && dropped !! foreign
    ensures OtherMarks(foreign, before, after)
    ensures forall k :: BindingObject(k) in before && k !in dropped ==> BindingObject(k) in after
  {}

  lemma AfterCleanup(pass: Pass, kept: seq<Key>, middle: map<Key, Binding>, mid: nat, dropped: set<Key>, now: map<Key, Binding>,
                     history: seq<Write>, ours: seq<Binding>, others: seq<Binding>, base: seq<Key>, status: seq<Key>,
                     marked: set<Object>, exact: bool, prune: bool)
    requires ValidRules(pass.rules) && Planned(pass, ours, others)
    requires Cleanup(pass, kept, middle, mid, dropped, now, history)
             && pass.room == OrdersFit(pass.first, pass.target, |pass.rules|)
    requires forall k :: k in dropped ==> exists b :: (b in ours || (prune && b in others)) && b.pk == k
    requires ValidBindingKeys(now)
    requires exact ==> forall k :: k in kept ==> k in ManagedKeys(base, marked) && k in ManagedKeys(status, marked)
    ensures Outcome(pass.rules, pass.target, pass.first, now, history, pass.start)
    ensures exact ==> CountedFor(pass.rules, pass.target, pass.first, pass.managed, now, base, status, marked, history, pass.start,
                                 true)
    ensures UnmanagedStay(prune, pass.first, pass.managed, now)
  {
    UnmanagedAfterCleanup(pass, kept, middle, mid, dropped, now, history, ours, others, prune);
    OutcomeOfCleanup(pass, kept, middle, mid, dropped, now, history, ours, others);
    if exact {
      hide Cleanup, Counts, Counted, PlanFits, Outcome, ManagedKeys, UnmanagedStay;
      CountedAfterCleanup(pass, kept, middle, mid, dropped, now, history, ours, others, ManagedKeys(base, marked));
      CountedAfterCleanup(pass, kept, middle, mid, dropped, now, history, ours, others, ManagedKeys(status, marked));
    }
  }

  /** The kept Bindings stay marked until the end of the pass. */
  lemma KeptAreManaged(pass: Pass, others: seq<Binding>, kept: seq<Key>, planned: set<Object>, written: set<Object>,
                       marked: set<Object>, recorded: seq<Key>)
    requires WrittenMarks(pass, others, kept, planned, written)
    requires forall k :: k in kept && BindingObject(k) in written ==> BindingObject(k) in marked
    ensures forall k :: k in kept ==> k in ManagedKeys(recorded, marked)
  {
    forall k | k in kept ensures k in ManagedKeys(recorded, marked) {
      ManagedKey(recorded, marked, k);
    }
  }

  /** Writes every rule and then finishes the pass. */
  method ExecutePass(markers: MarkerCache, s: Resource, pass: Pass, ours: seq<Binding>, others: seq<Binding>, maxOrder: int,
                     prune: bool, public: bool, ghost exact: bool)
    returns (res: Result<()>)
    requires markers.marker.server.Valid() && ValidRules(pass.rules) && Planned(pass, ours, others) && ValidBindingKeys(pass.first)
    requires Elements(s.base.bindingUuids) <= Elements(s.status.bindingUuids)
    requires pass.Valid() && Stage(pass, [], markers.marker.server.bindings, markers.marker.server.history)
    requires 0 <= maxOrder <= MAX_INT32 && Room(pass, 0, markers.marker.server.bindings, maxOrder)
    requires pass.room == OrdersFit(pass.first, pass.target, |pass.rules|) && SingleSubjects(pass.first, pass.target)
    requires exact ==>
               && markers.Exact() && PlanMarked(pass, others, markers.marker.Marked())
               && Elements(s.status.bindingUuids) <= pass.managed
               && KeysWhileWriting(pass.first, pass.managed, pass.plan, [],
                                   ManagedKeys(s.base.bindingUuids, markers.marker.Marked()))
    modifies s, markers, markers.marker, markers.clock, markers.marker.server`bindings, markers.marker.server`roles,
             markers.marker.server`sequence, markers.marker.server`grants, markers.marker.server`history
    ensures markers.marker.server.Valid()
    ensures Outcome(pass.rules, pass.target, pass.first, markers.marker.server.bindings, markers.marker.server.history, pass.start)
    ensures UnmanagedStay(prune, pass.first, pass.managed, markers.marker.server.bindings)
    ensures exact ==>
              && markers.Exact() && OtherMarks(Foreign(pass.first, pass.target), old(markers.marker.Marked()),
                                               markers.marker.Marked())
              && CountedFor(pass.rules, pass.target, pass.first, pass.managed, markers.marker.server.bindings, s.base.bindingUuids,
                            s.status.bindingUuids, markers.marker.Marked(), markers.marker.server.history, pass.start, res.Ok?
                              || res.error.Stop?)
              && (res.Ok? || res.error.Stop? ==>
                    Finished(pass.rules, pass.target, prune, pass.first, markers.marker.server.bindings, s.status, s.base,
                             markers.marker.Marked()))
              && ExpectedError(res, pass.room, public, s.status)
    ensures s.status == old(s.status).(bindingUuids := s.status.bindingUuids, unmanagedBindings := s.status.unmanagedBindings)
    ensures BesideBindings(s.base) == BesideBindings(old(s.base)) || BesideBindings(s.base) == BesideBindings(s.status)
    ensures old(markers.marker.server.history) <= markers.marker.server.history
    ensures NothingToWrite(pass) && (forall b :: b in ours ==> Some(b) in pass.plan) && (prune ==> others == []) ==>
              markers.marker.server.history == old(markers.marker.server.history) && (exact ==> res != Err(BadRequest))
  {
    hide ValidBindings, ValidApplications, ValidLinks, ValidProviders, ValidOutposts, ValidRoles, MarkedBy, Cleanup, Pass.Valid,
      Planned, Stage, Outcome, CountedFor, Settled, Finished, WrittenMarks, MarksWithout, ManagedKeys, OrdersFit, ValidRules,
      ValidBindingKeys, PlanMarked, NothingToWrite, SingleSubjects, Room, OtherMarks, BesideBindings, ExpectedError,
      MarkerCache.Exact, UnmanagedStay;
    var server := markers.marker.server;
    ghost var planned := markers.marker.Marked();
    PlannedValid(pass, ours, others);
    if exact {
      PlannedMarks(pass, others, planned);
    }
    var kept;
    res, kept := WriteBindings(markers, s, pass, maxOrder);
    SameBeside(old(s.base), s.base);
    SameBeside(s.status, s.base);
    ghost var written, status := markers.marker.Marked(), s.status;
    if exact {
      KeptNotForeign(pass, kept, server.bindings, server.history);
      OnlyBindingMarks(Foreign(pass.first, pass.target), planned, written, Elements(kept));
    }
    if res.Err? {
      ExpectedWhileWriting(res, pass.room, public, s.status);
      OutcomeWhileWriting(pass, kept, server.bindings, server.history);
      UnmanagedAfterStage(pass, kept, server.bindings, server.history, prune);
      if exact {
        ListKeys(server);
        BothAfterWriting(pass, ours, others, kept, server.bindings, server.history, old(s.status).bindingUuids,
                         old(s.base).bindingUuids,
                         s.base.bindingUuids, s.status.bindingUuids, planned, markers.marker.Marked());
      }
      return;
    }
    KeptPlanned(pass, kept, server.bindings, server.history, ours);
    if exact {
      MarksAfterWriting(pass, others, kept, planned, markers.marker.Marked());
    }
    res := FinishPass(markers, s, pass, ours, others, kept, prune, public, exact, planned);
    ExpectedAtEnd(res, pass.room, public, s.status);
    SameBeside(status, s.status);
    if exact {
      OtherMarksChain(Foreign(pass.first, pass.target), planned, written, markers.marker.Marked());
    }
    if exact {
      CountedOnTheWay(pass.rules, pass.target, pass.first, pass.managed, server.bindings, s.base.bindingUuids,
                      s.status.bindingUuids,
                      markers.marker.Marked(), server.history, pass.start);
    }
  }

  /** Wherever the write loop stops, what is managed is what was, the plan, and what was recorded or marked since. */
  lemma KeysAfterWriting(pass: Pass, kept: seq<Key>, now: map<Key, Binding>, history: seq<Write>, status: seq<Key>,
                         recorded: seq<Key>, recordedNow: seq<Key>, marked: set<Object>, markedNow: set<Object>)
    requires pass.Valid() && Stage(pass, kept, now, history)
    requires KeysWhileWriting(pass.first, pass.managed, pass.plan, [], ManagedKeys(recorded, marked))
             && Elements(status) <= pass.managed
    requires Elements(recorded) <= Elements(recordedNow) <= Elements(status) + Elements(kept)
    requires marked <= markedNow && forall o :: o in markedNow ==> o in marked || (o.model.BindingModel? && o.pk in Elements(kept))
    requires forall i :: 0 <= i < |kept| - 1 && pass.plan[i].None? ==> BindingObject(kept[i]) in markedNow
    ensures KeysWhileWriting(pass.first, pass.managed, pass.plan, kept, ManagedKeys(recordedNow, markedNow))
  {
    StageKeepsRules(pass, kept, now, history);
    KeptArePlanned(pass, kept, now, history);
    hide Stage, Pass.Valid;
    var keys, keysNow := ManagedKeys(recorded, marked), ManagedKeys(recordedNow, markedNow);
    ManagedGrow(recorded, marked, recordedNow, markedNow);
    forall k | k in keysNow ensures k in keys || k in pass.managed || k in kept {
      ManagedKey(recordedNow, markedNow, k);
      ManagedKey(recorded, marked, k);
    }
    forall i | 0 <= i < |kept| - 1 ensures kept[i] in keysNow {
      ManagedKey(recordedNow, markedNow, kept[i]);
      if pass.plan[i].Some? {
        PlannedKey(pass.plan, i);
      }
    }
  }

  lemma KeptArePlanned(pass: Pass, kept: seq<Key>, now: map<Key, Binding>, history: seq<Write>)
    requires pass.Valid() && Stage(pass, kept, now, history) && |kept| <= |pass.plan|
    ensures forall i :: 0 <= i < |kept| && pass.plan[i].Some? ==> kept[i] == pass.plan[i].value.pk
  {
    hide Represents, WritePhase, Written, PlanFits;
  }

  lemma CountedOnTheWay(rules: seq<Rule>, target: Key, first: map<Key, Binding>, keys: set<Key>, now: map<Key, Binding>,
                        base: seq<Key>, status: seq<Key>, marked: set<Object>, history: seq<Write>, start: nat)
    requires ValidRules(rules) && CountedFor(rules, target, first, keys, now, base, status, marked, history, start, true)
    ensures CountedFor(rules, target, first, keys, now, base, status, marked, history, start, false)
  {
    hide Attempted;
  }

  lemma BothAfterWriting(pass: Pass, ours: seq<Binding>, others: seq<Binding>, kept: seq<Key>, now: map<Key, Binding>,
                         history: seq<Write>, status: seq<Key>, recorded: seq<Key>, recordedNow: seq<Key>, statusNow: seq<Key>,
                         marked: set<Object>, markedNow: set<Object>)
    requires ValidRules(pass.rules) && Planned(pass, ours, others) && ValidBindingKeys(now)
    requires pass.Valid() && Stage(pass, kept, now, history)
    requires KeysWhileWriting(pass.first, pass.managed, pass.plan, [], ManagedKeys(recorded, marked))
             && Elements(status) <= pass.managed
    requires Elements(recorded) <= Elements(recordedNow) <= Elements(statusNow) <= Elements(status) + Elements(kept)
    requires marked <= markedNow && forall o :: o in markedNow ==> o in marked || (o.model.BindingModel? && o.pk in Elements(kept))
    requires forall i :: 0 <= i < |kept| - 1 && pass.plan[i].None? ==> BindingObject(kept[i]) in markedNow
    ensures CountedFor(pass.rules, pass.target, pass.first, pass.managed, now, recordedNow, statusNow, markedNow, history,
                       pass.start, false)
  {
    hide Planned, Stage, Pass.Valid, KeysWhileWriting, ManagedKeys, Counted, ValidBindingKeys, ValidRules;
    KeysAfterWriting(pass, kept, now, history, status, recorded, recordedNow, marked, markedNow);
    KeysAfterWriting(pass, kept, now, history, status, recorded, statusNow, marked, markedNow);
    CountedWhileWriting(pass, ours, others, kept, now, history, ManagedKeys(recordedNow, markedNow));
    CountedWhileWriting(pass, ours, others, kept, now, history, ManagedKeys(statusNow, markedNow));
  }

  /** A failed request or status update, the reported stop, or a refusal for want of orders. */
  predicate ExpectedError<T>(res: Result<T>, room: bool, public: bool, status: Status) {
    match res
    case Ok(_) => !public || status.unmanagedBindings == []
    case Err(Unavailable) => true
    case Err(Stop(UnmanagedBindings)) => public && status.unmanagedBindings != []
    case Err(BadRequest) => !room
    case Err(_) => false
  }

  lemma ExpectedWhileWriting(res: Result<()>, room: bool, public: bool, status: Status)
    ensures res.Err? && (res.error == Unavailable || (!room && res.error == BadRequest)) ==>
              ExpectedError(res, room, public, status)
  {}

  lemma ExpectedAtEnd(res: Result<()>, room: bool, public: bool, status: Status)
    ensures (&& (res.Err? ==>
                   || res.error == Unavailable
                   || (res.error == Stop(UnmanagedBindings) && public && status.unmanagedBindings != []))
             && (res.Ok? ==> !public || status.unmanagedBindings == []))
            ==> ExpectedError(res, room, public, status)
  {}

  lemma SameBeside(a: Status, b: Status)
    ensures a.(bindingUuids := []) == b.(bindingUuids := []) ==> BesideBindings(a) == BesideBindings(b)
    ensures b == a.(bindingUuids := b.bindingUuids, unmanagedBindings := b.unmanagedBindings) ==>
              BesideBindings(a) == BesideBindings(b)
  {}

  lemma PlannedMarks(pass: Pass, others: seq<Binding>, marked: set<Object>)
    requires PlanMarked(pass, others, marked)
    ensures forall i :: 0 <= i < |pass.plan| && pass.plan[i].Some? ==> BindingObject(pass.plan[i].value.pk) in marked
  {}

  lemma MarksAfterWriting(pass: Pass, others: seq<Binding>, kept: seq<Key>, planned: set<Object>, written: set<Object>)
    requires PlanMarked(pass, others, planned)
    requires forall o :: o in written ==> o in planned || (o.model.BindingModel? && o.pk in Elements(kept))
    requires forall i :: 0 <= i < |kept| ==> BindingObject(kept[i]) in written
    ensures WrittenMarks(pass, others, kept, planned, written)
  {}

  lemma KeptPlanned(pass: Pass, kept: seq<Key>, now: map<Key, Binding>, history: seq<Write>, ours: seq<Binding>)
    requires pass.Valid() && Stage(pass, kept, now, history) && |kept| == |pass.rules| == |pass.plan|
    ensures (forall b :: b in ours ==> Some(b) in pass.plan) ==> forall b :: b in ours ==> b.pk in kept
    ensures forall i :: 0 <= i < |kept| && pass.plan[i].Some? ==> kept[i] == pass.plan[i].value.pk
  {
    hide BindingClass, RuleClass, ObservedSubject, RuleSubject, ValidRule, PlanFits, WritePhase, Written, Represents;
    if forall b :: b in ours ==> Some(b) in pass.plan {
      forall b | b in ours ensures b.pk in kept {
        var i :| 0 <= i < |pass.plan| && pass.plan[i] == Some(b);
        assert kept[i] == b.pk;
      }
    }
  }

  /**
   reconcileBindings. Wherever it stops, no access right of a rule was lost in between and no other target was
   touched; per class it creates what its tally says; and when everything is in place already, it sends nothing.
   */
  method ReconcileBindings(markers: MarkerCache, s: Resource, target: Key, rules: seq<Rule>, prune: bool, public: bool)
    returns (res: Result<()>)
    requires markers.marker.server.Valid() && ValidRules(rules) && SingleSubjects(markers.marker.server.bindings, target)
    requires s.status.bindingUuids == s.base.bindingUuids
    modifies s, markers, markers.marker, markers.clock, markers.marker.server`bindings, markers.marker.server`roles,
             markers.marker.server`sequence, markers.marker.server`grants, markers.marker.server`history
    ensures markers.marker.server.Valid()
    ensures Outcome(rules, target, old(markers.marker.server.bindings), markers.marker.server.bindings,
                    markers.marker.server.history, old(|markers.marker.server.history|))
    ensures old(markers.Exact()) ==>
              UnmanagedStay(prune, old(markers.marker.server.bindings),
                            old(ManagedKeys(s.base.bindingUuids, markers.marker.Marked())), markers.marker.server.bindings)
    ensures old(markers.Exact()) ==>
              && markers.Exact() && OtherMarks(Foreign(old(markers.marker.server.bindings), target), old(markers.marker.Marked()),
                                               markers.marker.Marked())
              && CountedFor(rules, target, old(markers.marker.server.bindings),
                            old(ManagedKeys(s.base.bindingUuids, markers.marker.Marked())),
                            markers.marker.server.bindings, s.base.bindingUuids, s.status.bindingUuids, markers.marker.Marked(),
                            markers.marker.server.history, old(|markers.marker.server.history|), res.Ok? || res.error.Stop?)
              && (res.Ok? || res.error.Stop? ==>
                    Finished(rules, target, prune, old(markers.marker.server.bindings), markers.marker.server.bindings,
                             s.status, s.base, markers.marker.Marked()))
              && ExpectedError(res, old(OrdersFit(markers.marker.server.bindings, target, |rules|)), public, s.status)
    ensures s.status == old(s.status).(bindingUuids := s.status.bindingUuids, unmanagedBindings := s.status.unmanagedBindings)
    ensures BesideBindings(s.base) == BesideBindings(old(s.base)) || BesideBindings(s.base) == BesideBindings(s.status)
    ensures old(markers.marker.server.history) <= markers.marker.server.history
    ensures old(Quiet(markers, s, target, rules))
            && (prune ==> old(Settled(rules, target, true, markers.marker.server.bindings, s.status.bindingUuids,
                                      markers.marker.Marked()))) ==>
              markers.marker.server.history == old(markers.marker.server.history) && res != Err(BadRequest)
  {
    hide ValidBindings, ValidApplications, ValidLinks, ValidProviders, ValidOutposts, ValidRoles, MarkedBy, Pass.Valid, Planned,
      Stage, Outcome, CountedFor, Settled, Finished, ManagedKeys, OrdersFit, ValidRules, ValidBindingKeys, PlanMarked,
      NothingToWrite, SingleSubjects, Room, OtherMarks, UnmanagedStay;
    var server := markers.marker.server;
    ListKeys(server);
    var planned, ours, others, maxOrder := PlanPass(markers, s, target, rules);
    ghost var keys := old(ManagedKeys(s.base.bindingUuids, markers.marker.Marked()));
    UnmanagedUntouched(prune, server.bindings, keys);
    RecordedAreManaged(s.status.bindingUuids, old(markers.marker.Marked()));
    if planned.Err? {
      OutcomeAtStart(rules, target, server.bindings, server.outposts, old(server.history), server.history);
      if old(markers.Exact()) {
        CountedAtStart(rules, target, server.bindings, keys, s.base.bindingUuids, markers.marker.Marked(), server.history,
                       old(|server.history|));
      }
      return Err(planned.error);
    }
    var pass := planned.value;
    PlannedValid(pass, ours, others);
    StageAtStart(pass, old(server.history), server.history, server.outposts);
    PrunedNothing(pass, ours, others, s.status.bindingUuids, old(markers.marker.Marked()));
    ghost var marked := markers.marker.Marked();
    res := ExecutePass(markers, s, pass, ours, others, maxOrder, prune, public, old(markers.Exact()));
    if old(markers.Exact()) {
      OtherMarksChain(Foreign(pass.first, pass.target), old(markers.marker.Marked()), marked, markers.marker.Marked());
    }
  }

  lemma CountedAtStart(rules: seq<Rule>, target: Key, bindings: map<Key, Binding>, keys: set<Key>, recorded: seq<Key>,
                       marked: set<Object>, history: seq<Write>, start: nat)
    requires ValidRules(rules) && Tallied(rules, target, bindings, keys, bindings, ManagedKeys(recorded, marked), false)
    requires Creations(history, start) == 0
    ensures CountedFor(rules, target, bindings, keys, bindings, recorded, recorded, marked, history, start, false)
  {
    hide Tallied;
    assert bindings.Keys - bindings.Keys == {};
  }

  lemma RecordedAreManaged(recorded: seq<Key>, marked: set<Object>)
    ensures Elements(recorded) <= ManagedKeys(recorded, marked)
  {}

  lemma PrunedNothing(pass: Pass, ours: seq<Binding>, others: seq<Binding>, recorded: seq<Key>, marked: set<Object>)
    requires ValidRules(pass.rules) && Planned(pass, ours, others)
    ensures (&& pass.managed == ManagedKeys(recorded, marked)
             && Settled(pass.rules, pass.target, true, pass.first, recorded, marked)) ==> others == []
  {
    if others != [] {
      assert others[0] in others;
      ManagedKey(recorded, marked, others[0].pk);
    }
  }
}
