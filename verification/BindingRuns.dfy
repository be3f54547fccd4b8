/** Passes over the Bindings that fail or crash anywhere and are tried again. */
module BindingRuns {
  import opened Base
  import opened Api
  import opened Matching
  import opened Server
  import opened Ownership
  import opened BindingPlan
  import opened BindingTally
  import opened BindingAttempts
  import opened BindingHistory
  import opened BindingSteps
  import opened Bindings
  import opened Resources

  /** A safe run that continues a safe run is safe as a whole. */
  lemma SafeRunsChain(history: seq<Write>, longer: seq<Write>, start: nat, first: map<Key, Binding>, now: map<Key, Binding>,
                      target: Key, rules: seq<Rule>)
    requires ValidRules(rules) && history <= longer
    requires SafeRun(history, start, first, target, rules) && Before(history, start, first, |history|) == now
    requires SafeRun(longer, |history|, now, target, rules)
    ensures SafeRun(longer, start, first, target, rules)
    ensures Before(longer, start, first, |longer|) == Before(longer, |history|, now, |longer|)
  {
    hide Represented, HasBindings, SingleSubjects;
    assert forall k :: 0 <= k < |history| ==> longer[k] == history[k];
    assert forall k :: start <= k <= |history| ==> Before(longer, start, first, k) == Before(history, start, first, k);
    assert forall k :: |history| <= k <= |longer| ==> Before(longer, start, first, k) == Before(longer, |history|, now, k);
    assert KeepsRules(first, now, target, rules) by { assert |history| > start ==> now == history[|history| - 1].bindings; }
    forall k | start <= k < |longer|
      ensures KeepsRules(first, longer[k].bindings, target, rules) && SingleSubjects(longer[k].bindings, target)
    {
      assert k >= |history| ==> KeepsRules(now, longer[k].bindings, target, rules);
    }
    forall d, k | start <= d <= k < |longer| && longer[d].call.DeleteBindingCall?
      ensures AllRepresented(longer[k].bindings, target, rules)
    {
      if d < |history| <= k {
        assert AllRepresented(history[|history| - 1].bindings, target, rules);
        assert KeepsRules(now, longer[k].bindings, target, rules);
      }
    }
  }

  /** The operator crashed: it remembers only what it wrote to the status. */
  method Crash(markers: MarkerCache, s: Resource)
    modifies s`status, markers`objects, markers.marker`roleUUID
    ensures s.status == s.base && markers.objects == None && markers.marker.roleUUID == None
    ensures markers.Exact()
  {
    s.Reload();
    markers.objects := None;
    markers.marker.roleUUID := None;
  }

  /** From recoverable classes, the Bindings created and the classes still open are no more than the classes open at the start. */
  ghost predicate Bounded(rules: seq<Rule>, target: Key, start: Moment, now: Moment, created: nat)
    requires ValidRules(rules)
  {
    AllRecoverable(rules, target, start.bindings, start.managed) ==>
      && AllRecoverable(rules, target, now.bindings, now.managed)
      && created + |Open(rules, target, now.bindings, now.managed)| <= |Open(rules, target, start.bindings, start.managed)|
  }

  /** What all passes since entry begin of the history did, from the moment that they started from. */
  ghost predicate Repeated(rules: seq<Rule>, target: Key, start: Moment, moments: seq<Moment>, now: Moment, history: seq<Write>,
                           begin: nat)
    requires ValidRules(rules)
  {
    && begin <= |history| && SafeRun(history, begin, start.bindings, target, rules)
    && Before(history, begin, start.bindings, |history|) == now.bindings
    && Passes(rules, target, moments) && moments[0] == start && moments[|moments| - 1] == now
    && Bounded(rules, target, start, now, Creations(history, begin))
  }

  lemma NoneRepeated(rules: seq<Rule>, target: Key, start: Moment, history: seq<Write>)
    requires ValidRules(rules)
    ensures Repeated(rules, target, start, [start], start, history, |history|)
  {
    hide AllRecoverable, Open, SafeRun, Passes;
    PassesStart(rules, target, start);
    SafeRunStarts(history, start.bindings, target, rules);
  }

  /** One more pass. */
  lemma RepeatedNext(rules: seq<Rule>, target: Key, start: Moment, moments: seq<Moment>, now: Moment, next: Moment,
                     history: seq<Write>, longer: seq<Write>, begin: nat, finished: bool)
    requires ValidRules(rules) && Repeated(rules, target, start, moments, now, history, begin) && history <= longer
    requires SafeRun(longer, |history|, now.bindings, target, rules)
             && Before(longer, |history|, now.bindings, |longer|) == next.bindings
    requires Counted(rules, target, now.bindings, now.managed, next.bindings, next.managed, longer, |history|, finished)
    ensures Repeated(rules, target, start, moments + [next], next, longer, begin)
  {
    assert moments != [];
    hide SafeRun, Tallied, Bounded, Passes;
    AcceptedAdd(history, longer, begin, CreateBindingCall);
    SafeRunsChain(history, longer, begin, start.bindings, now.bindings, target, rules);
    PassesAppend(rules, target, moments, next, finished);
    BoundedNext(rules, target, start, now, next, Creations(history, begin), finished);
  }

  lemma BoundedNext(rules: seq<Rule>, target: Key, start: Moment, now: Moment, next: Moment, created: nat, finished: bool)
    requires ValidRules(rules) && Bounded(rules, target, start, now, created)
    requires Tallied(rules, target, now.bindings, now.managed, next.bindings, next.managed, finished)
    ensures Bounded(rules, target, start, next, created + |next.bindings.Keys - now.bindings.Keys|)
  {
    hide Tallied, Open, AllRecoverable;
    if AllRecoverable(rules, target, start.bindings, start.managed) {
      OpenShrinks(rules, target, now.bindings, now.managed, next.bindings, next.managed, finished);
    }
  }

  /**
   Tries until a pass goes through or the attempts are used up. Every attempt may fail at any request or status
   update, and the operator may crash at that point. Over all attempts together no access right is lost. Seen from
   any class the attempts are a run of passes: from a recoverable tally they create together no more than one
   uninterrupted pass, and when every class is recoverable this bounds all creations. A pass that goes through
   covers every rule.
   */
  method ReconcileUntilDone(markers: MarkerCache, s: Resource, target: Key, rules: seq<Rule>, prune: bool, public: bool,
                            attempts: nat)
    returns (res: Result<()>, ghost moments: seq<Moment>)
    requires markers.marker.server.Valid() && ValidRules(rules) && SingleSubjects(markers.marker.server.bindings, target)
    requires s.status.bindingUuids == s.base.bindingUuids && markers.Exact()
    modifies s, markers, markers.marker, markers.clock, markers.marker.server`bindings, markers.marker.server`roles,
             markers.marker.server`sequence, markers.marker.server`grants, markers.marker.server`history
    ensures markers.marker.server.Valid() && markers.Exact()
    ensures SafeRun(markers.marker.server.history, old(|markers.marker.server.history|), old(markers.marker.server.bindings),
                    target, rules)
    ensures SingleSubjects(markers.marker.server.bindings, target)
    ensures Passes(rules, target, moments) && moments[0] == old(Now(markers, s)) && moments[|moments| - 1] == Now(markers, s)
    ensures forall wanted :: Run(Tallies(rules, target, moments, wanted), CreatedPerPass(target, moments, wanted))
    ensures forall wanted :: NoWaste(rules, target, moments, wanted)
    ensures AllRecoverable(rules, target, moments[0].bindings, moments[0].managed) ==>
              Creations(markers.marker.server.history, old(|markers.marker.server.history|))
              + |Open(rules, target, Now(markers, s).bindings, Now(markers, s).managed)|
              <= |Open(rules, target, moments[0].bindings, moments[0].managed)|
    ensures res.Ok? || res.error.Stop? ==>
              && Settled(rules, target, prune, markers.marker.server.bindings, s.status.bindingUuids, markers.marker.Marked())
              && s.base.bindingUuids == s.status.bindingUuids
  {
    hide ValidBindings, ValidApplications, ValidLinks, ValidProviders, ValidOutposts, ValidRoles, MarkedBy, Settled, ManagedKeys,
      OrdersFit, SingleSubjects, SafeRun, OtherMarks, KeepsRules, OthersUntouched, ValidRules, Tallied, AllRecoverable, Open,
      Passes, TallyOf, Tally.Recoverable, Tally.Needed, Tallies, CreatedPerPass, Run, NoWaste, MarkerCache.Exact, Repeated;
    var server := markers.marker.server;
    ghost var start, begin := Now(markers, s), |server.history|;
    res, moments := Err(Unavailable), [start];
    NoneRepeated(rules, target, start, server.history);
    for attempt := 0 to attempts
      invariant server.Valid() && markers.Exact() && s.status.bindingUuids == s.base.bindingUuids
      invariant SingleSubjects(server.bindings, target)
      invariant Repeated(rules, target, start, moments, Now(markers, s), server.history, begin)
      invariant res == Err(Unavailable)
    {
      ghost var history, now := server.history, Now(markers, s);
      var run := ReconcileBindings(markers, s, target, rules, prune, public);
      RepeatedNext(rules, target, start, moments, now, Now(markers, s), history, server.history, begin, run.Ok? || run.error.Stop?);
      moments := moments + [Now(markers, s)];
      if run.Ok? || run.error.Stop? {
        res := run;
        break;
      }
      if * {
        Crash(markers, s);
      } else {
        s.Reload();
      }
    }
    RepeatedSoFar(rules, target, start, moments, Now(markers, s), server.history, begin);
  }

  lemma RepeatedSoFar(rules: seq<Rule>, target: Key, start: Moment, moments: seq<Moment>, now: Moment, history: seq<Write>,
                      begin: nat)
    requires ValidRules(rules) && Repeated(rules, target, start, moments, now, history, begin)
    ensures begin <= |history| && SafeRun(history, begin, start.bindings, target, rules)
    ensures Passes(rules, target, moments) && |moments| > 0 && moments[0] == start && moments[|moments| - 1] == now
    ensures forall wanted :: Run(Tallies(rules, target, moments, wanted), CreatedPerPass(target, moments, wanted))
    ensures forall wanted :: NoWaste(rules, target, moments, wanted)
    ensures AllRecoverable(rules, target, start.bindings, start.managed) ==>
              Creations(history, begin) + |Open(rules, target, now.bindings, now.managed)|
              <= |Open(rules, target, start.bindings, start.managed)|
  {
    hide SafeRun, Passes, AllRecoverable, Open, Run, Tallies, CreatedPerPass, NoWaste;
    RunsOf(rules, target, moments);
  }

  /** What the next pass starts from: the status that was written, and the markers. */
  ghost function Now(markers: MarkerCache, s: Resource): Moment
    reads s`base, markers.marker.server`bindings, markers.marker.server`roles, markers.marker.server`grants
  {
    Moment(markers.marker.server.bindings, ManagedKeys(s.base.bindingUuids, markers.marker.Marked()))
  }

  lemma PassesStart(rules: seq<Rule>, target: Key, start: Moment)
    requires ValidRules(rules)
    ensures Passes(rules, target, [start])
  {}

  /** From a recoverable tally of a class, what was created and what is still needed are no more than what was needed. */
  ghost predicate NoWaste(rules: seq<Rule>, target: Key, moments: seq<Moment>, wanted: Class)
    requires ValidRules(rules) && moments != []
  {
    var start, last := moments[0], moments[|moments| - 1];
    TallyOf(rules, target, start.bindings, start.managed, wanted).Recoverable() ==>
      Sum(CreatedPerPass(target, moments, wanted)) + TallyOf(rules, target, last.bindings, last.managed, wanted).Needed()
      <= TallyOf(rules, target, start.bindings, start.managed, wanted).Needed()
  }

  lemma RunsOf(rules: seq<Rule>, target: Key, moments: seq<Moment>)
    requires ValidRules(rules) && Passes(rules, target, moments)
    ensures |moments| > 0
    ensures forall wanted :: Run(Tallies(rules, target, moments, wanted), CreatedPerPass(target, moments, wanted))
    ensures forall wanted :: NoWaste(rules, target, moments, wanted)
  {
    hide Tallied, TallyOf, Tally.Recoverable, Tally.Needed, Tallies, CreatedPerPass, Run;
    forall wanted
      ensures Run(Tallies(rules, target, moments, wanted), CreatedPerPass(target, moments, wanted))
      ensures NoWaste(rules, target, moments, wanted)
    {
      PassesAreRuns(rules, target, moments, wanted);
      TalliesAt(rules, target, moments, wanted);
    }
  }

  lemma TalliesAt(rules: seq<Rule>, target: Key, moments: seq<Moment>, wanted: Class)
    requires ValidRules(rules) && moments != []
    ensures var tallies, last := Tallies(rules, target, moments, wanted), moments[|moments| - 1];
            && |CreatedPerPass(target, moments, wanted)| == |tallies| - 1 == |moments| - 1
            && tallies[0] == TallyOf(rules, target, moments[0].bindings, moments[0].managed, wanted)
            && tallies[|moments| - 1] == TallyOf(rules, target, last.bindings, last.managed, wanted)
  {}

  lemma SafeRunStarts(history: seq<Write>, first: map<Key, Binding>, target: Key, rules: seq<Rule>)
    requires ValidRules(rules)
    ensures SafeRun(history, |history|, first, target, rules) && Creations(history, |history|) == 0
    ensures Before(history, |history|, first, |history|) == first
  {}
}
