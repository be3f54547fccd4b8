/** Safety of the Bindings of one target at every moment of a run, as facts about the server's history. */
module BindingHistory {
  import opened Base
  import opened Api
  import opened Matching
  import opened Server
  import opened BindingPlan

  /** The Bindings right before entry k of a run that started with first at entry start. */
  ghost function Before(history: seq<Write>, start: nat, first: map<Key, Binding>, k: nat): map<Key, Binding>
    requires k <= |history|
  {
    if k <= start then first else history[k - 1].bindings
  }

  /** Order, whether a Binding applies, how long it may take, and what counts when it fails: no rule asks for any of these. */
  predicate SameSettings(before: Binding, after: Binding) {
    && after.order == before.order && after.enabled == before.enabled && after.timeout == before.timeout
    && after.failureResult == before.failureResult
  }

  /** A new Binding applies, may take the server's default of 30 seconds, and denies when it fails. */
  predicate NewSettings(binding: Binding) {
    binding.enabled == Some(true) && binding.timeout == Some(30) && binding.failureResult == Some(false)
  }

  /** A Binding that was there has the settings it had, and a new one those of a new one. */
  ghost predicate SettingsStay(before: map<Key, Binding>, after: map<Key, Binding>) {
    forall k :: k in after ==> if k in before then SameSettings(before[k], after[k]) else NewSettings(after[k])
  }

  /**
   The safety of a run. Every rule that had a Binding at the start has one after every write. From the first
   deletion on, every rule has one. No write empties the target while there are rules, and every Binding of the
   target keeps exactly one subject. No write changes the settings of a Binding, and a new one applies.
   */
  ghost predicate SafeRun(history: seq<Write>, start: nat, first: map<Key, Binding>, target: Key, rules: seq<Rule>)
    requires ValidRules(rules)
  {
    && start <= |history|
    && (forall k :: start <= k < |history| ==>
          KeepsRules(first, history[k].bindings, target, rules) && SingleSubjects(history[k].bindings, target))
    && (forall d, k :: start <= d <= k < |history| && history[d].call.DeleteBindingCall? ==>
          AllRepresented(history[k].bindings, target, rules))
    && (rules != [] ==> forall k :: start <= k < |history| && HasBindings(Before(history, start, first, k), target) ==>
          HasBindings(history[k].bindings, target))
    && (forall k :: start <= k < |history| ==> SettingsStay(Before(history, start, first, k), history[k].bindings))
  }

  predicate WritesBinding(call: Call) {
    RoleCall(call) || call.CreateBindingCall? || call.PatchBindingCall?
  }

  /** Only requests for Bindings and markers. */
  ghost predicate OnlyBindingCalls(history: seq<Write>, start: nat) {
    forall k :: start <= k < |history| ==> WritesBinding(history[k].call) || history[k].call.DeleteBindingCall?
  }

  /** The first part of a run, up to entry end: nothing is deleted. */
  ghost predicate WritePhase(history: seq<Write>, start: nat, end: nat, first: map<Key, Binding>, now: map<Key, Binding>,
                             target: Key, rules: seq<Rule>)
    requires ValidRules(rules)
  {
    && start <= end <= |history|
    && Before(history, start, first, end) == now
    && KeepsRules(first, now, target, rules) && SingleSubjects(now, target)
    && forall k :: start <= k < end ==>
         && WritesBinding(history[k].call)
         && KeepsRules(first, history[k].bindings, target, rules) && SingleSubjects(history[k].bindings, target)
         && Grows(Before(history, start, first, k), history[k].bindings, target)
         && SettingsStay(Before(history, start, first, k), history[k].bindings)
  }

  /** The second part of a run, from entry mid, which finds middle: every rule is represented. */
  ghost predicate DeletePhase(history: seq<Write>, mid: nat, middle: map<Key, Binding>, now: map<Key, Binding>, target: Key,
                              rules: seq<Rule>)
    requires ValidRules(rules)
  {
    && mid <= |history| && Before(history, mid, middle, |history|) == now
    && AllRepresented(now, target, rules) && SingleSubjects(now, target)
    && forall k :: mid <= k < |history| ==>
         && (history[k].call.DeleteBindingCall? || RoleCall(history[k].call))
         && AllRepresented(history[k].bindings, target, rules) && SingleSubjects(history[k].bindings, target)
         && SettingsStay(Before(history, mid, middle, k), history[k].bindings)
  }

  lemma StartWritePhase(history: seq<Write>, first: map<Key, Binding>, target: Key, rules: seq<Rule>)
    requires ValidRules(rules) && SingleSubjects(first, target)
    ensures WritePhase(history, |history|, |history|, first, first, target, rules)
  {}

  lemma ExtendWritePhase(history: seq<Write>, longer: seq<Write>, start: nat, first: map<Key, Binding>, now: map<Key, Binding>,
                         next: map<Key, Binding>, target: Key, rules: seq<Rule>)
    requires ValidRules(rules) && WritePhase(history, start, |history|, first, now, target, rules)
    requires |longer| == |history| + 1 && longer[..|history|] == history
    requires longer[|history|].bindings == next && WritesBinding(longer[|history|].call)
    requires KeepsRules(first, next, target, rules) && SingleSubjects(next, target) && Grows(now, next, target)
    requires SettingsStay(now, next)
    ensures WritePhase(longer, start, |longer|, first, next, target, rules)
  {
    hide KeepsRules, SingleSubjects, Grows, SettingsStay;
    assert forall k :: 0 <= k < |history| ==> longer[k] == history[k];
    assert forall k :: 0 <= k <= |history| ==> Before(longer, start, first, k) == Before(history, start, first, k);
  }

  lemma SameStay(bindings: map<Key, Binding>)
    ensures SettingsStay(bindings, bindings)
  {}

  lemma SameGrow(bindings: map<Key, Binding>, target: Key)
    ensures Grows(bindings, bindings, target)
  {}

  lemma ExtendByMarkers(history: seq<Write>, longer: seq<Write>, start: nat, first: map<Key, Binding>, now: map<Key, Binding>,
                        outposts: map<Key, Outpost>, target: Key, rules: seq<Rule>)
    requires ValidRules(rules) && WritePhase(history, start, |history|, first, now, target, rules)
    requires OnlyMarkerWrites(history, longer, now, outposts)
    ensures WritePhase(longer, start, |longer|, first, now, target, rules)
  {
    hide KeepsRules, SingleSubjects, Grows, SettingsStay;
    SameGrow(now, target);
    SameStay(now);
    assert forall k :: 0 <= k < |history| ==> longer[k] == history[k];
    assert forall k :: 0 <= k <= |history| ==> Before(longer, start, first, k) == Before(history, start, first, k);
    assert forall k :: |history| <= k <= |longer| ==> Before(longer, start, first, k) == now;
  }

  lemma WritePhaseOf(history: seq<Write>, longer: seq<Write>, start: nat, end: nat, first: map<Key, Binding>,
                     now: map<Key, Binding>, target: Key, rules: seq<Rule>)
    requires ValidRules(rules) && WritePhase(history, start, end, first, now, target, rules) && history <= longer
    ensures WritePhase(longer, start, end, first, now, target, rules)
  {
    hide KeepsRules, SingleSubjects, Grows, SettingsStay;
    assert forall k :: 0 <= k < |history| ==> longer[k] == history[k];
    assert forall k :: 0 <= k <= |history| ==> Before(longer, start, first, k) == Before(history, start, first, k);
  }

  lemma ExtendDeletePhase(history: seq<Write>, longer: seq<Write>, mid: nat, middle: map<Key, Binding>, now: map<Key, Binding>,
                          next: map<Key, Binding>, target: Key, rules: seq<Rule>)
    requires ValidRules(rules) && DeletePhase(history, mid, middle, now, target, rules)
    requires history <= longer
    requires forall k :: |history| <= k < |longer| ==>
               longer[k].bindings == next && (longer[k].call.DeleteBindingCall? || RoleCall(longer[k].call))
    requires AllRepresented(next, target, rules) && SingleSubjects(next, target) && SettingsStay(now, next) && history != longer
    ensures DeletePhase(longer, mid, middle, next, target, rules)
  {
    hide AllRepresented, SingleSubjects, SettingsStay;
    assert forall k :: 0 <= k < |history| ==> longer[k] == history[k];
    assert forall k :: 0 <= k <= |history| ==> Before(longer, mid, middle, k) == Before(history, mid, middle, k);
    SameStay(next);
    forall k | mid <= k < |longer| ensures SettingsStay(Before(longer, mid, middle, k), longer[k].bindings) {
      assert k > |history| ==> Before(longer, mid, middle, k) == next;
    }
  }

  /** Deleting after writing is safe. */
  lemma PhasesAreSafe(history: seq<Write>, start: nat, mid: nat, first: map<Key, Binding>, middle: map<Key, Binding>,
                      now: map<Key, Binding>, target: Key, rules: seq<Rule>)
    requires ValidRules(rules) && WritePhase(history, start, mid, first, middle, target, rules)
    requires DeletePhase(history, mid, middle, now, target, rules)
    ensures SafeRun(history, start, first, target, rules) && OnlyBindingCalls(history, start)
  {
    hide ValidRule, Represents, SingleSubjects, SettingsStay;
    forall k | start <= k < |history| && rules != [] && HasBindings(Before(history, start, first, k), target)
      ensures HasBindings(history[k].bindings, target)
    {
      if k < mid {
        StillHas(Before(history, start, first, k), history[k].bindings, target);
      } else {
        FirstHas(history[k].bindings, target, rules);
      }
    }
    hide AllRepresented, Represented, HasBindings, Grows;
    forall k | mid <= k < |history| ensures Before(history, start, first, k) == Before(history, mid, middle, k) {}
    forall k | start <= k < |history| ensures KeepsRules(first, history[k].bindings, target, rules) {
      assert k >= mid ==> AllRepresented(history[k].bindings, target, rules);
      if k >= mid {
        AllKept(first, history[k].bindings, target, rules);
      }
    }
  }

  lemma AllKept(before: map<Key, Binding>, after: map<Key, Binding>, target: Key, rules: seq<Rule>)
    requires ValidRules(rules) && AllRepresented(after, target, rules)
    ensures KeepsRules(before, after, target, rules)
  {}

  lemma StillHas(before: map<Key, Binding>, after: map<Key, Binding>, target: Key)
    requires Grows(before, after, target) && HasBindings(before, target)
    ensures HasBindings(after, target)
  {}

  lemma FirstHas(bindings: map<Key, Binding>, target: Key, rules: seq<Rule>)
    requires ValidRules(rules) && AllRepresented(bindings, target, rules) && rules != []
    ensures HasBindings(bindings, target)
  {
    assert Represented(bindings, target, rules[0]);
  }

  lemma WritesAreSafe(history: seq<Write>, start: nat, first: map<Key, Binding>, now: map<Key, Binding>, target: Key,
                      rules: seq<Rule>)
    requires ValidRules(rules) && WritePhase(history, start, |history|, first, now, target, rules)
    ensures SafeRun(history, start, first, target, rules) && OnlyBindingCalls(history, start)
  {
    forall k | start <= k < |history| && HasBindings(Before(history, start, first, k), target)
      ensures HasBindings(history[k].bindings, target)
    {
      var b :| b in Before(history, start, first, k) && Before(history, start, first, k)[b].target == target;
      assert b in history[k].bindings && history[k].bindings[b].target == target;
    }
  }

  lemma StepStays(history: seq<Write>, start: nat, first: map<Key, Binding>, target: Key, rules: seq<Rule>, k: nat)
    requires ValidRules(rules) && SafeRun(history, start, first, target, rules) && start <= k < |history|
    ensures SettingsStay(Before(history, start, first, k), Before(history, start, first, k + 1))
  {
    hide KeepsRules, SingleSubjects, AllRepresented, HasBindings, SettingsStay;
  }

  lemma KeptSettings(before: map<Key, Binding>, after: map<Key, Binding>, key: Key)
    requires SettingsStay(before, after) && key in before && key in after
    ensures SameSettings(before[key], after[key])
  {}

  /** A Binding that is there at every moment between two has the same settings at both. */
  lemma {:induction false} SettingsThroughout(history: seq<Write>, start: nat, first: map<Key, Binding>, target: Key,
                                              rules: seq<Rule>, i: nat, j: nat, key: Key)
    requires ValidRules(rules) && SafeRun(history, start, first, target, rules) && start <= i <= j <= |history|
    requires forall k :: i <= k <= j ==> key in Before(history, start, first, k)
    ensures SameSettings(Before(history, start, first, i)[key], Before(history, start, first, j)[key])
  {
    hide SafeRun, SettingsStay, Before;
    if i < j {
      StepStays(history, start, first, target, rules, j - 1);
      SettingsThroughout(history, start, first, target, rules, i, j - 1, key);
      KeptSettings(Before(history, start, first, j - 1), Before(history, start, first, j), key);
    }
  }

  // ---------- counting ----------

  predicate CreatesBinding(write: Write) {
    write.call.CreateBindingCall? && write.verdict.Accepted?
  }

  /** How many Bindings were created since entry start. */
  ghost function Creations(history: seq<Write>, start: nat): nat {
    AcceptedCalls(history, start, CreateBindingCall)
  }

  lemma NoCreations(history: seq<Write>, longer: seq<Write>, start: nat)
    requires history <= longer && start <= |history|
    requires forall k :: |history| <= k < |longer| ==> !CreatesBinding(longer[k])
    ensures Creations(longer, start) == Creations(history, start)
  {
    NoneAccepted(history, longer, start, CreateBindingCall);
  }

  /** No create or patch of a Binding was refused since entry start. */
  ghost predicate NoneRefused(history: seq<Write>, start: nat) {
    forall k :: start <= k < |history| && (history[k].call.CreateBindingCall? || history[k].call.PatchBindingCall?) ==>
      !history[k].verdict.Refused?
  }
}
