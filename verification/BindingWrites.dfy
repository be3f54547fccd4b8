/** The write loop of reconcileBindings (internal/controller/bindings.go): one Binding per rule, repaired or created. */
module BindingWrites {
  import opened Base
  import opened Api
  import opened Patch
  import opened Matching
  import opened Server
  import opened Ownership
  import opened Desired
  import opened BindingPlan
  import opened BindingHistory
  import opened Resources

  /** The gap between the order of a new Binding and the largest existing order. */
  const ORDER_STEP := 10

  ghost predicate OrdersUpTo(bindings: map<Key, Binding>, target: Key, max: int) {
    forall k :: k in bindings && bindings[k].target == target ==> bindings[k].order <= max
  }

  // ---------- one rule ----------

  /** The server accepts the repair of a Binding whose subject is already the rule's. */
  lemma RepairAccepted(bindings: map<Key, Binding>, sequence: nat, target: Key, rule: Rule, binding: Binding)
    requires ValidBindings(bindings, sequence) && ValidRule(rule)
    requires binding.pk in bindings && bindings[binding.pk] == binding
    requires binding.target == target && ObservedSubject(binding) == RuleSubject(rule) && SingleSubject(binding)
    requires DiffBinding(DesiredBinding(target, rule), binding).Some?
    ensures var patch := DiffBinding(DesiredBinding(target, rule), binding).value;
            var after := ApplyBinding(patch, binding);
            && patch.target == Some(target) && patch.order.None? && OneSubject(patch.policy, patch.group, patch.user)
            && !OrderTaken(bindings, PatchNullable(patch.policy, binding.policy), target, PatchValue(patch.order, binding.order),
                           binding.pk)
            && Represents(after, target, rule) && SingleSubject(after) && after.order == binding.order && after.pk == binding.pk
            && BindingFrame(DesiredBinding(target, rule), binding, after) && SameSettings(binding, after)
            && ObservedSubject(after) == ObservedSubject(binding)
            && DiffBinding(DesiredBinding(target, rule), after).None?
  {
    BindingConverges(DesiredBinding(target, rule), binding);
    var after := ApplyBinding(DiffBinding(DesiredBinding(target, rule), binding).value, binding);
    SettledBinding(target, rule, after);
  }

  /** Patches the managed fields of a Binding that differ. */
  method SyncBinding(server: Authentik, target: Key, rule: Rule, binding: Binding) returns (res: Result<()>)
    requires server.Valid() && ValidRule(rule)
    requires binding.pk in server.bindings && server.bindings[binding.pk] == binding
    requires binding.target == target && ObservedSubject(binding) == RuleSubject(rule) && SingleSubject(binding)
    modifies server`bindings, server`history
    ensures server.Valid()
    ensures binding.pk in server.bindings && server.bindings == old(server.bindings)[binding.pk := server.bindings[binding.pk]]
    ensures var after := server.bindings[binding.pk];
            && after.target == target && ObservedSubject(after) == ObservedSubject(binding) && SingleSubject(after)
            && after.order == binding.order && BindingFrame(DesiredBinding(target, rule), binding, after)
            && SameSettings(binding, after)
            && (res.Ok? ==> Represents(after, target, rule) && DiffBinding(DesiredBinding(target, rule), after).None?)
    ensures res.Err? ==> server.bindings == old(server.bindings) && res.error == Unavailable
    ensures if DiffBinding(DesiredBinding(target, rule), binding).None? then
              res.Ok? && server.history == old(server.history) && server.bindings == old(server.bindings)
            else
              exists w: Write :: w.call == PatchBindingCall && w.verdict != Refused && w.bindings == server.bindings
                                 && server.history == old(server.history) + [w]
  {
    hide ValidBindings, ValidApplications, ValidLinks, ValidProviders, ValidOutposts, ValidRoles, OrderTaken;
    var patch := DiffBinding(DesiredBinding(target, rule), binding);
    if patch.None? {
      SettledBinding(target, rule, binding);
      return Ok(());
    }
    RepairAccepted(server.bindings, server.sequence, target, rule, binding);
    var patched := server.PatchPolicyBinding(binding.pk, patch.value);
    return if patched.Ok? then Ok(()) else Err(patched.error);
  }

  // ---------- the write loop ----------

  /** The work of one pass: the rules of a target, the Binding planned for each, and where the pass started. */
  datatype Pass = Pass(
    target: Key,
    rules: seq<Rule>,
    plan: seq<Option<Binding>>,
    ghost first: map<Key, Binding>,
    ghost managed: set<Key>,
    ghost start: nat,
    ghost room: bool)  // whether the orders left suffice for every rule
  {
    ghost predicate Valid() {
      && ValidRules(rules)
      && PlanFits(rules, target, first, managed, plan)
    }
  }

  /** The Bindings of the first rules are as the rules ask. */
  ghost predicate Written(pass: Pass, kept: seq<Key>, now: map<Key, Binding>)
    requires pass.Valid()
  {
    && |kept| <= |pass.rules|
    && forall i :: 0 <= i < |kept| ==>
         && kept[i] in now && SingleSubject(now[kept[i]])
         && DiffBinding(DesiredBinding(pass.target, pass.rules[i]), now[kept[i]]).None?
  }

  /** What holds between any two requests of the write loop. */
  ghost predicate Stage(pass: Pass, kept: seq<Key>, now: map<Key, Binding>, history: seq<Write>)
    requires pass.Valid()
  {
    && Progress(pass.rules, pass.target, pass.first, pass.plan, kept, now)
    && Written(pass, kept, now)
    && WritePhase(history, pass.start, |history|, pass.first, now, pass.target, pass.rules)
    && Creations(history, pass.start) == |CreatedRules(pass.plan, |kept|)|
    && (pass.room ==> NoneRefused(history, pass.start))
  }

  /** The orders that the pass still needs are free. */
  ghost predicate Room(pass: Pass, done: nat, now: map<Key, Binding>, maxOrder: int) {
    pass.room ==>
      && done <= |pass.rules| && 0 <= maxOrder && maxOrder + ORDER_STEP * (|pass.rules| - done) <= MAX_INT32
      && OrdersUpTo(now, pass.target, maxOrder)
  }

  lemma StageAtStart(pass: Pass, history: seq<Write>, longer: seq<Write>, outposts: map<Key, Outpost>)
    requires pass.Valid() && pass.start == |history| && SingleSubjects(pass.first, pass.target)
    requires OnlyMarkerWrites(history, longer, pass.first, outposts)
    ensures Stage(pass, [], pass.first, longer)
  {
    StartWritePhase(history, pass.first, pass.target, pass.rules);
    assert CreatedRules(pass.plan, 0) == {};
    ExtendByMarkers(history, longer, pass.start, pass.first, pass.first, outposts, pass.target, pass.rules);
    NoCreations(history, longer, pass.start);
  }

  /** A request that changes no Binding leaves the stage as it is. */
  lemma StageAfterFailure(pass: Pass, kept: seq<Key>, now: map<Key, Binding>, history: seq<Write>, w: Write)
    requires pass.Valid() && Stage(pass, kept, now, history)
    requires w.bindings == now && WritesBinding(w.call) && !CreatesBinding(w) && (pass.room ==> !w.verdict.Refused?)
    ensures Stage(pass, kept, now, history + [w])
  {
    hide Progress, Written, PlanFits, WritePhase, KeepsRules, SingleSubjects;
    assert (history + [w])[..|history|] == history;
    StageKeepsRules(pass, kept, now, history);
    ExtendWritePhase(history, history + [w], pass.start, pass.first, now, now, pass.target, pass.rules);
  }

  lemma StageKeepsRules(pass: Pass, kept: seq<Key>, now: map<Key, Binding>, history: seq<Write>)
    requires pass.Valid() && Stage(pass, kept, now, history)
    ensures KeepsRules(pass.first, now, pass.target, pass.rules) && SingleSubjects(now, pass.target) && pass.start <= |history|
    ensures |pass.plan| == |pass.rules| && |kept| <= |pass.rules|
  {}

  lemma StageAfterMarkers(pass: Pass, kept: seq<Key>, now: map<Key, Binding>, outposts: map<Key, Outpost>, history: seq<Write>,
                          longer: seq<Write>)
    requires pass.Valid() && Stage(pass, kept, now, history) && OnlyMarkerWrites(history, longer, now, outposts)
    ensures Stage(pass, kept, now, longer)
  {
    hide Progress, Written, PlanFits, KeepsRules, SingleSubjects;
    ExtendByMarkers(history, longer, pass.start, pass.first, now, outposts, pass.target, pass.rules);
    NoCreations(history, longer, pass.start);
  }

  /** The rules that follow the written ones still have the Binding that was planned for them. */
  lemma StageNext(pass: Pass, kept: seq<Key>, now: map<Key, Binding>, history: seq<Write>)
    requires pass.Valid() && Stage(pass, kept, now, history)
    requires |kept| < |pass.rules| && |pass.plan| == |pass.rules| && pass.plan[|kept|].Some?
    ensures var b := pass.plan[|kept|].value;
            && b.pk in now && now[b.pk] == b && b.target == pass.target && b.pk !in kept
            && ObservedSubject(b) == RuleSubject(pass.rules[|kept|]) && SingleSubject(b)
  {
    NextPlanned(pass.rules, pass.target, pass.first, pass.managed, pass.plan, kept, now);
  }

  lemma StageAfterSync(pass: Pass, kept: seq<Key>, now: map<Key, Binding>, history: seq<Write>, after: Binding, longer: seq<Write>)
    requires pass.Valid() && Stage(pass, kept, now, history)
    requires |kept| < |pass.rules| && |pass.plan| == |pass.rules| && pass.plan[|kept|].Some?
    requires Represents(after, pass.target, pass.rules[|kept|]) && ObservedSubject(after) == RuleSubject(pass.rules[|kept|])
    requires SingleSubject(after) && DiffBinding(DesiredBinding(pass.target, pass.rules[|kept|]), after).None?
    requires SameSettings(pass.plan[|kept|].value, after)
    requires var next := now[pass.plan[|kept|].value.pk := after];
             (longer == history && next == now) ||
             exists w: Write :: longer == history + [w] && w.call == PatchBindingCall && w.verdict != Refused && w.bindings == next
    ensures Stage(pass, kept + [pass.plan[|kept|].value.pk], now[pass.plan[|kept|].value.pk := after], longer)
  {
    var pk := pass.plan[|kept|].value.pk;
    var next, more := now[pk := after], kept + [pk];
    ProgressSync(pass.rules, pass.target, pass.first, pass.managed, pass.plan, kept, now, after);
    StageNext(pass, kept, now, history);
    StageAfterWrite(pass, kept, now, history, more, next, after, longer);
  }

  lemma StageAfterCreate(pass: Pass, kept: seq<Key>, now: map<Key, Binding>, history: seq<Write>, b: Binding, w: Write)
    requires pass.Valid() && Stage(pass, kept, now, history)
    requires |kept| < |pass.rules| && |pass.plan| == |pass.rules| && pass.plan[|kept|].None?
    requires b.pk !in now && Represents(b, pass.target, pass.rules[|kept|])
    requires SingleSubject(b) && DiffBinding(DesiredBinding(pass.target, pass.rules[|kept|]), b).None? && NewSettings(b)
    requires CreatesBinding(w) && w.bindings == now[b.pk := b]
    ensures Stage(pass, kept + [b.pk], now[b.pk := b], history + [w])
  {
    ProgressCreate(pass.rules, pass.target, pass.first, pass.plan, kept, now, b);
    StageAfterWrite(pass, kept, now, history, kept + [b.pk], now[b.pk := b], b, history + [w]);
  }

  lemma KeptAreDistinct(pass: Pass, kept: seq<Key>, now: map<Key, Binding>)
    requires pass.Valid() && Progress(pass.rules, pass.target, pass.first, pass.plan, kept, now)
    ensures forall i, j :: 0 <= i < j < |kept| ==> kept[i] != kept[j]
  {}

  lemma WrittenNext(pass: Pass, kept: seq<Key>, now: map<Key, Binding>, more: seq<Key>, after: Binding)
    requires pass.Valid() && Written(pass, kept, now) && |kept| < |pass.rules|
    requires kept <= more && |more| == |kept| + 1 && forall i, j :: 0 <= i < j < |more| ==> more[i] != more[j]
    requires SingleSubject(after) && DiffBinding(DesiredBinding(pass.target, pass.rules[|kept|]), after).None?
    ensures Written(pass, more, now[more[|kept|] := after])
  {
    hide DiffBinding, SingleSubject, PlanFits;
    assert forall i :: 0 <= i < |kept| ==> more[i] == kept[i];
  }

  /** The request that served a rule: none, or one that was not refused and creates exactly when nothing was planned. */
  ghost predicate Served(pass: Pass, done: nat, now: map<Key, Binding>, next: map<Key, Binding>, history: seq<Write>,
                         longer: seq<Write>)
    requires done < |pass.plan|
  {
    || (longer == history && next == now && pass.plan[done].Some?)
    || exists w: Write :: longer == history + [w] && w.bindings == next && w.verdict != Refused && WritesBinding(w.call)
                          && (CreatesBinding(w) <==> pass.plan[done].None?)
  }

  lemma HistoryAfterWrite(pass: Pass, done: nat, now: map<Key, Binding>, next: map<Key, Binding>, history: seq<Write>,
                          longer: seq<Write>)
    requires ValidRules(pass.rules) && done < |pass.plan| && Served(pass, done, now, next, history, longer)
    requires WritePhase(history, pass.start, |history|, pass.first, now, pass.target, pass.rules)
    requires KeepsRules(pass.first, next, pass.target, pass.rules) && SingleSubjects(next, pass.target)
             && Grows(now, next, pass.target) && SettingsStay(now, next)
    requires Creations(history, pass.start) == |CreatedRules(pass.plan, done)| && (pass.room ==> NoneRefused(history, pass.start))
    requires pass.start <= |history|
    ensures WritePhase(longer, pass.start, |longer|, pass.first, next, pass.target, pass.rules)
    ensures Creations(longer, pass.start) == |CreatedRules(pass.plan, done + 1)| && (pass.room ==> NoneRefused(longer, pass.start))
  {
    hide WritePhase, KeepsRules, SingleSubjects, Grows, ValidRules;
    CreatedStep(pass.plan, done);
    if longer != history {
      assert longer[..|history|] == history;
      ExtendWritePhase(history, longer, pass.start, pass.first, now, next, pass.target, pass.rules);
    }
  }

  lemma StageAfterWrite(pass: Pass, kept: seq<Key>, now: map<Key, Binding>, history: seq<Write>, more: seq<Key>,
                        next: map<Key, Binding>, after: Binding, longer: seq<Write>)
    requires pass.Valid() && Stage(pass, kept, now, history) && |kept| < |pass.rules| && |pass.plan| == |pass.rules|
    requires |more| == |kept| + 1 && next == now[more[|kept|] := after]
    requires after.target == pass.target && SingleSubject(after) && kept <= more
    requires DiffBinding(DesiredBinding(pass.target, pass.rules[|kept|]), after).None?
    requires Progress(pass.rules, pass.target, pass.first, pass.plan, more, next)
    requires Served(pass, |kept|, now, next, history, longer) && SettingsStay(now, next)
    ensures Stage(pass, more, next, longer)
  {
    hide Progress, Written, PlanFits, KeepsRules, SingleSubjects, SingleSubject, Grows, WritePhase, AllRepresented, ValidRules,
      DiffBinding, DesiredBinding, Creations, NoneRefused, CreatedRules, Served;
    KeptAreDistinct(pass, more, next);
    WrittenNext(pass, kept, now, more, after);
    StageKeepsRules(pass, kept, now, history);
    ProgressKeepsRules(pass.rules, pass.target, pass.first, pass.managed, pass.plan, more, next);
    StoreGrows(now, pass.target, more[|kept|], after);
    HistoryAfterWrite(pass, |kept|, now, next, history, longer);
  }

  /** Markers were only added, and only to Bindings among keys. */
  twostate predicate MarksOnly(markers: MarkerCache, keys: set<Key>)
    reads markers, markers.marker, markers.marker.server
  {
    && markers.marker.server.Valid()
    && (old(markers.Exact()) ==>
          && markers.Exact() && old(markers.marker.Marked()) <= markers.marker.Marked()
          && forall o :: o in markers.marker.Marked() ==>
            o in old(markers.marker.Marked()) || (o.model.BindingModel? && o.pk in keys))
  }

  /** UUIDs among keys were added to the status, and the rest of it is as before. */
  twostate predicate Records(s: Resource, keys: set<Key>)
    reads s
  {
    && Elements(s.status.bindingUuids) <= Elements(old(s.status).bindingUuids) + keys
    && s.status == old(s.status).(bindingUuids := s.status.bindingUuids)
    && Elements(old(s.status).bindingUuids) <= Elements(s.status.bindingUuids)
    && Elements(old(s.base).bindingUuids) <= Elements(s.base.bindingUuids) <= Elements(s.status.bindingUuids)
    && (s.base.(bindingUuids := []) == old(s.base).(bindingUuids := [])
        || s.base.(bindingUuids := []) == s.status.(bindingUuids := []))
  }

  lemma FreeOrder(bindings: map<Key, Binding>, policy: Nullable<Key>, target: Key, order: int)
    requires OrdersUpTo(bindings, target, order - 1)
    ensures !OrderTaken(bindings, policy, target, order, EMPTY)
  {}

  /** Creates the Binding of the next rule, records its UUID, and marks it, in this order. */
  method CreateFor(markers: MarkerCache, s: Resource, pass: Pass, kept: seq<Key>, order: int)
    returns (res: Result<()>, more: seq<Key>)
    requires markers.marker.server.Valid() && pass.Valid() && |kept| < |pass.rules| == |pass.plan| && pass.plan[|kept|].None?
    requires Elements(s.base.bindingUuids) <= Elements(s.status.bindingUuids)
    requires Stage(pass, kept, markers.marker.server.bindings, markers.marker.server.history)
    requires -0x8000_0000 <= order <= MAX_INT32
    requires pass.room ==> OrdersUpTo(markers.marker.server.bindings, pass.target, order - 1)
    modifies s, markers, markers.marker, markers.clock, markers.marker.server`bindings, markers.marker.server`roles,
             markers.marker.server`sequence, markers.marker.server`grants, markers.marker.server`history
    ensures Stage(pass, more, markers.marker.server.bindings, markers.marker.server.history)
    ensures kept <= more && |more| <= |kept| + 1 && (res.Ok? ==> |more| == |kept| + 1)
    ensures var now := markers.marker.server.bindings;
            if |more| == |kept| then now == old(markers.marker.server.bindings)
            else
              && more[|kept|] !in old(markers.marker.server.bindings) && more[|kept|] in now
              && now == old(markers.marker.server.bindings)[more[|kept|] := now[more[|kept|]]]
              && now[more[|kept|]].order == order && NewSettings(now[more[|kept|]])
              && DiffBinding(DesiredBinding(pass.target, pass.rules[|kept|]), now[more[|kept|]]).None?
    ensures old(markers.marker.server.history) <= markers.marker.server.history
    ensures Records(s, Elements(more)) && MarksOnly(markers, Elements(more))
    ensures old(markers.Exact()) && res.Ok? ==> BindingObject(more[|kept|]) in markers.marker.Marked()
    ensures old(markers.Exact()) && |more| > |kept|
            && BindingObject(more[|kept|]) in markers.marker.Marked() - old(markers.marker.Marked()) ==>
              more[|kept|] in s.base.bindingUuids
    ensures old(markers.Exact()) && res.Err? ==> res.error == Unavailable || (!pass.room && res.error == BadRequest)
  {
    hide ValidBindings, ValidApplications, ValidLinks, ValidProviders, ValidOutposts, ValidRoles, MarkedBy, Stage, Pass.Valid,
      OrderTaken, OrdersUpTo, OneSubject, DiffBinding, BindingClass, RuleClass, StoredBinding, CreateBindingRequest, DesiredBinding;
    var server := markers.marker.server;
    var rule := pass.rules[|kept|];
    PassRule(pass, |kept|);
    var request := CreateBindingRequest(DesiredBinding(pass.target, rule), order);
    NewBinding(pass.target, rule, order, server.sequence + 1);
    Fresh(server.bindings, server.applications, server.proxyProviders, server.oauth2Providers, server.sequence);
    if pass.room {
      FreeOrder(server.bindings, request.policy, pass.target, order);
    }
    var created := server.CreatePolicyBinding(request);
    ghost var w := server.history[|old(server.history)|];
    if created.Err? {
      StageAfterFailure(pass, kept, server.bindings, old(server.history), w);
      return Err(created.error), kept;
    }
    more := kept + [created.value.pk];
    StageAfterCreate(pass, kept, old(server.bindings), old(server.history), created.value, w);
    ghost var history := server.history;
    res := RecordAndMark(markers, s, created.value.pk);
    StageAfterMarkers(pass, more, server.bindings, server.outposts, history, server.history);
  }

  /** Records the UUID of a Binding before attaching the marker. */
  method RecordAndMark(markers: MarkerCache, s: Resource, pk: Key) returns (res: Result<()>)
    requires markers.marker.server.Valid() && pk in markers.marker.server.bindings
    requires Elements(s.base.bindingUuids) <= Elements(s.status.bindingUuids)
    modifies s, markers, markers.marker, markers.clock, markers.marker.server`roles, markers.marker.server`sequence,
             markers.marker.server`grants, markers.marker.server`history
    ensures Records(s, {pk}) && MarksOnly(markers, {pk})
    ensures OnlyMarkerWrites(old(markers.marker.server.history), markers.marker.server.history, markers.marker.server.bindings,
                             markers.marker.server.outposts)
    ensures old(markers.Exact()) && res.Ok? ==> BindingObject(pk) in markers.marker.Marked() && pk in s.base.bindingUuids
    ensures old(markers.Exact()) && BindingObject(pk) in markers.marker.Marked() - old(markers.marker.Marked()) ==>
              pk in s.base.bindingUuids
    ensures old(markers.Exact()) && res.Err? ==> res.error == Unavailable
  {
    hide ValidBindings, ValidApplications, ValidLinks, ValidProviders, ValidOutposts, ValidRoles, MarkedBy;
    s.status := s.status.(bindingUuids := Union(s.status.bindingUuids, pk));
    res := s.PatchStatus();
    if res.Err? {
      return res;
    }
    res := markers.Ensure(BindingObject(pk));
  }

  lemma PassRule(pass: Pass, i: nat)
    requires pass.Valid() && i < |pass.rules|
    ensures ValidRule(pass.rules[i]) && DesiredBinding(pass.target, pass.rules[i]).target == Some(pass.target)
  {}

  lemma NewBinding(target: Key, rule: Rule, order: int, pk: Key)
    requires ValidRule(rule)
    ensures var request := CreateBindingRequest(DesiredBinding(target, rule), order);
            var stored := StoredBinding(request, pk);
            && request.order == order && request.target == target && OneSubject(request.policy, request.group, request.user)
            && stored.pk == pk && stored.order == order && stored.target == target
            && DiffBinding(DesiredBinding(target, rule), stored).None?
            && Represents(stored, target, rule) && SingleSubject(stored) && NewSettings(stored)
  {
    CreatedBindingSettled(target, rule, order, pk);
  }

  lemma KeptAreStored(pass: Pass, kept: seq<Key>, now: map<Key, Binding>, history: seq<Write>)
    requires pass.Valid() && Stage(pass, kept, now, history)
    ensures forall i :: 0 <= i < |kept| ==> kept[i] in now
  {}

  lemma RoomStep(pass: Pass, done: nat, now: map<Key, Binding>, maxOrder: int)
    requires Room(pass, done, now, maxOrder) && done < |pass.rules|
    ensures pass.room ==> maxOrder + ORDER_STEP <= MAX_INT32 && OrdersUpTo(now, pass.target, maxOrder + ORDER_STEP - 1)
  {}

  lemma RoomCovers(pass: Pass, done: nat, now: map<Key, Binding>, maxOrder: int, k: Key)
    requires Room(pass, done, now, maxOrder) && k in now && now[k].target == pass.target
    ensures pass.room ==> now[k].order <= maxOrder
  {}

  lemma RoomAfterStore(pass: Pass, done: nat, now: map<Key, Binding>, maxOrder: int, newMax: int, pk: Key, after: Binding)
    requires Room(pass, done, now, maxOrder) && done < |pass.rules|
    requires pass.room ==> maxOrder <= newMax <= maxOrder + ORDER_STEP && (after.target == pass.target ==> after.order <= newMax)
    ensures Room(pass, done + 1, now[pk := after], newMax)
  {}

  /** The pass has nothing to write. */
  ghost predicate NothingToWrite(pass: Pass)
    requires pass.Valid()
  {
    forall i :: 0 <= i < |pass.rules| ==>
      pass.plan[i].Some? && DiffBinding(DesiredBinding(pass.target, pass.rules[i]), pass.plan[i].value).None?
  }

  /** Repairs the Binding planned for the next rule, or creates one behind every existing Binding. */
  method WriteOne(markers: MarkerCache, s: Resource, pass: Pass, kept: seq<Key>, maxOrder: int)
    returns (res: Result<()>, more: seq<Key>, newMax: int)
    requires markers.marker.server.Valid() && pass.Valid() && |kept| < |pass.rules| == |pass.plan|
    requires Elements(s.base.bindingUuids) <= Elements(s.status.bindingUuids)
    requires Stage(pass, kept, markers.marker.server.bindings, markers.marker.server.history)
    requires -0x8000_0000 <= maxOrder <= MAX_INT32 && Room(pass, |kept|, markers.marker.server.bindings, maxOrder)
    modifies s, markers, markers.marker, markers.clock, markers.marker.server`bindings, markers.marker.server`roles,
             markers.marker.server`sequence, markers.marker.server`grants, markers.marker.server`history
    ensures Stage(pass, more, markers.marker.server.bindings, markers.marker.server.history)
    ensures kept <= more && |more| <= |kept| + 1 && (res.Ok? ==> |more| == |kept| + 1)
    ensures newMax == if pass.plan[|kept|].Some? then maxOrder else Int32(maxOrder + ORDER_STEP)
    ensures pass.plan[|kept|].None? && |more| > |kept| ==>
              more[|kept|] in markers.marker.server.bindings && markers.marker.server.bindings[more[|kept|]].order == newMax
    ensures forall i :: 0 <= i < |kept| ==>
              && kept[i] in old(markers.marker.server.bindings) && kept[i] in markers.marker.server.bindings
              && markers.marker.server.bindings[kept[i]] == old(markers.marker.server.bindings)[kept[i]]
    ensures res.Ok? ==> Room(pass, |more|, markers.marker.server.bindings, newMax)
    ensures old(markers.marker.server.history) <= markers.marker.server.history
    ensures Records(s, Elements(more)) && MarksOnly(markers, Elements(more))
    ensures old(markers.Exact()) && res.Ok? && pass.plan[|kept|].None? ==> BindingObject(more[|kept|]) in markers.marker.Marked()
    ensures pass.plan[|kept|].Some? && |more| > |kept| ==> more[|kept|] == pass.plan[|kept|].value.pk
    ensures old(markers.Exact()) && res.Err? ==> res.error == Unavailable || (!pass.room && res.error == BadRequest)
    ensures NothingToWrite(pass) ==>
              && res.Ok? && markers.marker.server.history == old(markers.marker.server.history)
              && markers.marker.server.bindings == old(markers.marker.server.bindings)
  {
    hide ValidBindings, ValidApplications, ValidLinks, ValidProviders, ValidOutposts, ValidRoles, MarkedBy, Stage, PlanFits,
      ValidRules, Room, OrdersUpTo, OneSubject, DiffBinding, ObservedSubject, RuleSubject, BindingClass, RuleClass, DesiredBinding;
    var server := markers.marker.server;
    KeptAreStored(pass, kept, server.bindings, server.history);
    RoomStep(pass, |kept|, server.bindings, maxOrder);
    if pass.plan[|kept|].None? {
      newMax := Int32(maxOrder + ORDER_STEP);
      res, more := CreateFor(markers, s, pass, kept, newMax);
      if res.Ok? {
        RoomAfterStore(pass, |kept|, old(server.bindings), maxOrder, newMax, more[|kept|], server.bindings[more[|kept|]]);
      }
      return;
    }
    StageNext(pass, kept, server.bindings, server.history);
    PassRule(pass, |kept|);
    var binding := pass.plan[|kept|].value;
    res := SyncBinding(server, pass.target, pass.rules[|kept|], binding);
    more, newMax := kept, maxOrder;
    if res.Err? {
      StageAfterFailure(pass, kept, server.bindings, old(server.history), server.history[|old(server.history)|]);
      return;
    }
    more := kept + [binding.pk];
    ghost var after := server.bindings[binding.pk];
    StageAfterSync(pass, kept, old(server.bindings), old(server.history), after, server.history);
    RoomCovers(pass, |kept|, old(server.bindings), maxOrder, binding.pk);
    RoomAfterStore(pass, |kept|, old(server.bindings), maxOrder, newMax, binding.pk, after);
  }

  /** New Bindings come behind every existing one, in the order of their rules and with a gap between each other. */
  ghost predicate OrdersBehind(pass: Pass, kept: seq<Key>, startOrder: int, now: map<Key, Binding>) {
    && |kept| <= |pass.plan|
    && forall i :: 0 <= i < |kept| && pass.plan[i].None? ==>
         kept[i] in now && now[kept[i]].order == startOrder + 10 * |CreatedRules(pass.plan, i + 1)|
  }

  lemma NoneCreated(pass: Pass, startOrder: int, now: map<Key, Binding>)
    ensures OrdersBehind(pass, [], startOrder, now) && |CreatedRules(pass.plan, 0)| == 0
  {
    assert CreatedRules(pass.plan, 0) == {};
  }

  lemma OrdersNext(pass: Pass, kept: seq<Key>, startOrder: int, maxOrder: int, before: map<Key, Binding>, more: seq<Key>,
                   now: map<Key, Binding>)
    requires OrdersBehind(pass, kept, startOrder, before) && |kept| < |pass.plan| && kept <= more && |more| == |kept| + 1
    requires maxOrder == startOrder + ORDER_STEP * |CreatedRules(pass.plan, |kept|)|
    requires forall i :: 0 <= i < |kept| ==> kept[i] in before && kept[i] in now && now[kept[i]] == before[kept[i]]
    requires pass.plan[|kept|].None? ==> more[|kept|] in now && now[more[|kept|]].order == maxOrder + ORDER_STEP
    ensures OrdersBehind(pass, more, startOrder, now)
    ensures maxOrder + (if pass.plan[|kept|].None? then ORDER_STEP else 0)
            == startOrder + ORDER_STEP * |CreatedRules(pass.plan, |more|)|
  {
    CreatedStep(pass.plan, |kept|);
    assert forall i :: 0 <= i < |kept| ==> more[i] == kept[i];
  }

  /** The write loop: one Binding per rule, in the order of the rules. */
  method WriteBindings(markers: MarkerCache, s: Resource, pass: Pass, startOrder: int) returns (res: Result<()>, kept: seq<Key>)
    requires markers.marker.server.Valid() && pass.Valid() && |pass.rules| == |pass.plan|
    requires Elements(s.base.bindingUuids) <= Elements(s.status.bindingUuids)
    requires Stage(pass, [], markers.marker.server.bindings, markers.marker.server.history)
    requires -0x8000_0000 <= startOrder <= MAX_INT32 && Room(pass, 0, markers.marker.server.bindings, startOrder)
    modifies s, markers, markers.marker, markers.clock, markers.marker.server`bindings, markers.marker.server`roles,
             markers.marker.server`sequence, markers.marker.server`grants, markers.marker.server`history
    ensures Stage(pass, kept, markers.marker.server.bindings, markers.marker.server.history)
    ensures res.Ok? ==> |kept| == |pass.rules|
    ensures pass.room && res.Ok? ==> OrdersBehind(pass, kept, startOrder, markers.marker.server.bindings)
    ensures Records(s, Elements(kept)) && MarksOnly(markers, Elements(kept))
    ensures old(markers.marker.server.history) <= markers.marker.server.history
    ensures old(markers.Exact()) ==>
              forall i :: 0 <= i < |kept| && pass.plan[i].None? && (res.Ok? || i < |kept| - 1) ==>
                BindingObject(kept[i]) in markers.marker.Marked()
    ensures old(markers.Exact()) && res.Err? ==> res.error == Unavailable || (!pass.room && res.error == BadRequest)
    ensures NothingToWrite(pass) ==>
              && res.Ok? && markers.marker.server.history == old(markers.marker.server.history)
              && markers.marker.server.bindings == old(markers.marker.server.bindings)
  {
    hide ValidBindings, ValidApplications, ValidLinks, ValidProviders, ValidOutposts, ValidRoles, MarkedBy, Stage, PlanFits,
      ValidRules, Room, NothingToWrite, OrdersBehind, CreatedRules;
    kept := [];
    NoneCreated(pass, startOrder, markers.marker.server.bindings);
    var maxOrder := startOrder;
    while |kept| < |pass.rules|
      invariant |kept| <= |pass.rules|
      invariant Stage(pass, kept, markers.marker.server.bindings, markers.marker.server.history)
      invariant -0x8000_0000 <= maxOrder <= MAX_INT32 && Room(pass, |kept|, markers.marker.server.bindings, maxOrder)
      invariant pass.room ==>
                  && OrdersBehind(pass, kept, startOrder, markers.marker.server.bindings)
                  && maxOrder == startOrder + ORDER_STEP * |CreatedRules(pass.plan, |kept|)|
      invariant Records(s, Elements(kept)) && MarksOnly(markers, Elements(kept))
      invariant old(markers.marker.server.history) <= markers.marker.server.history
      invariant old(markers.Exact()) ==>
                  forall i :: 0 <= i < |kept| && pass.plan[i].None? ==> BindingObject(kept[i]) in markers.marker.Marked()
      invariant NothingToWrite(pass) ==>
                  && markers.marker.server.history == old(markers.marker.server.history)
                  && markers.marker.server.bindings == old(markers.marker.server.bindings)
      decreases |pass.rules| - |kept|
    {
      var more: seq<Key>;
      ghost var before, order := markers.marker.server.bindings, maxOrder;
      RoomStep(pass, |kept|, before, maxOrder);
      res, more, maxOrder := WriteOne(markers, s, pass, kept, maxOrder);
      assert Elements(kept) <= Elements(more);
      if pass.room && res.Ok? {
        OrdersNext(pass, kept, startOrder, order, before, more, markers.marker.server.bindings);
      }
      kept := more;
      if res.Err? {
        return;
      }
    }
    res := Ok(());
  }
}
