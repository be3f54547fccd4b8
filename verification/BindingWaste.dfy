/**
 Where an interruption makes two passes create more Bindings than one (internal/controller/bindings.go): from every state
 in which a class is not recoverable, for every assignment that the operator may choose.
 */
module BindingWaste {
  import opened Base
  import opened Api
  import opened Desired
  import opened Server
  import opened Matching
  import opened BindingPlan
  import opened BindingTally
  import opened BindingAttempts

  /** What a pass has read, matched, and planned. */
  ghost predicate Plans(rules: seq<Rule>, target: Key, bindings: map<Key, Binding>, managed: set<Key>, ours: seq<Binding>,
                        others: seq<Binding>, first: seq<Option<Binding>>, second: seq<Option<Binding>>,
                        plan: seq<Option<Binding>>)
    requires ValidRules(rules)
  {
    && ValidBindingKeys(bindings) && DistinctPks(ours) && DistinctPks(others) && Split(target, bindings, managed, ours, others)
    && BestAssignment(rules, ours, false, first) && BestAssignment(rules, others, true, second)
    && |first| == |second| == |rules| && InOrder(rules, first) && InOrder(rules, second) && Combined(first, second, plan)
  }

  lemma PlansFit(rules: seq<Rule>, target: Key, bindings: map<Key, Binding>, managed: set<Key>, ours: seq<Binding>,
                 others: seq<Binding>, first: seq<Option<Binding>>, second: seq<Option<Binding>>, plan: seq<Option<Binding>>,
                 wanted: Class)
    requires ValidRules(rules) && Plans(rules, target, bindings, managed, ours, others, first, second, plan)
    ensures PlanFits(rules, target, bindings, managed, plan) && |plan| == |rules|
            && CountsOf(rules, target, bindings, managed, plan, wanted)
  {
    hide PlanFits, CountsOf, BestAssignment, Split, InOrder, DistinctPks, ValidBindingKeys;
    CombinedFits(rules, target, bindings, managed, ours, others, first, second, plan);
    PlanCounts(rules, target, bindings, managed, ours, others, first, second, plan, wanted);
  }

  // ---------- nothing to spare ----------

  /** Every managed Binding of a subject is held by a rule. */
  ghost predicate AllHeld(target: Key, bindings: map<Key, Binding>, managed: set<Key>, matched: seq<Option<Binding>>,
                          subject: Subject) {
    forall k :: k in managed && k in bindings && bindings[k].target == target && ObservedSubject(bindings[k]) == subject ==>
      exists i :: 0 <= i < |matched| && matched[i].Some? && matched[i].value.pk == k
  }

  /** When a rule of the class holds nothing and no managed Binding is left over, the tally covers no more than what is held. */
  lemma CoveredExactly(rules: seq<Rule>, target: Key, bindings: map<Key, Binding>, managed: set<Key>,
                       matched: seq<Option<Binding>>, wanted: Class, idle: nat)
    requires ValidRules(rules) && Holds(rules, target, bindings, managed, matched)
    requires AllHeld(target, bindings, managed, matched, wanted.subject)
    requires idle < |rules| == |matched| && RuleClass(rules[idle]) == wanted && matched[idle].None?
    ensures TallyOf(rules, target, bindings, managed, wanted).covered <= |Matched(rules, matched, wanted)|
  {
    hide Holds, AllHeld, OnTarget, RulesOf, Matched, ExactOf, InexactOf, RuleClass, ValidRules, Exact;
    HeldOfClass(rules, target, bindings, managed, matched, wanted, idle);
    HeldOfOpposite(rules, target, bindings, managed, matched, wanted, idle);
    MatchedParts(rules, matched, wanted);
  }

  lemma HeldOfClass(rules: seq<Rule>, target: Key, bindings: map<Key, Binding>, managed: set<Key>,
                    matched: seq<Option<Binding>>, wanted: Class, idle: nat)
    requires ValidRules(rules) && Holds(rules, target, bindings, managed, matched)
    requires AllHeld(target, bindings, managed, matched, wanted.subject)
    requires idle < |rules| == |matched| && RuleClass(rules[idle]) == wanted && matched[idle].None?
    ensures |OnTarget(bindings, target, wanted) * managed| <= |ExactOf(rules, matched, wanted)|
  {
    hide Holds, AllHeld, OnTarget, RuleClass, BindingClass, ValidRules, ValidRule;
    var exact := ExactOf(rules, matched, wanted);
    forall k | k in OnTarget(bindings, target, wanted) * managed ensures exists i :: i in exact && matched[i].value.pk == k {
      var i := HeldBySomeRule(rules, target, bindings, managed, matched, wanted, wanted, idle, k);
    }
    KeysHeld(matched, exact, OnTarget(bindings, target, wanted) * managed);
  }

  lemma HeldOfOpposite(rules: seq<Rule>, target: Key, bindings: map<Key, Binding>, managed: set<Key>,
                       matched: seq<Option<Binding>>, wanted: Class, idle: nat)
    requires ValidRules(rules) && Holds(rules, target, bindings, managed, matched)
    requires AllHeld(target, bindings, managed, matched, wanted.subject)
    requires idle < |rules| == |matched| && RuleClass(rules[idle]) == wanted && matched[idle].None?
    ensures |OnTarget(bindings, target, Opposite(wanted)) * managed|
            <= |RulesOf(rules, Opposite(wanted))| + |InexactOf(rules, matched, wanted)|
  {
    hide Holds, AllHeld, OnTarget, RuleClass, BindingClass, ValidRules, ValidRule;
    var other := Opposite(wanted);
    var exact, inexact := ExactOf(rules, matched, other), InexactOf(rules, matched, wanted);
    forall k | k in OnTarget(bindings, target, other) * managed
      ensures exists i :: i in exact + inexact && matched[i].value.pk == k {
      var i := HeldBySomeRule(rules, target, bindings, managed, matched, wanted, other, idle, k);
    }
    KeysHeld(matched, exact + inexact, OnTarget(bindings, target, other) * managed);
    SubsetSize(exact, RulesOf(rules, other));
    assert |exact + inexact| <= |exact| + |inexact|;
  }

  lemma HeldBySomeRule(rules: seq<Rule>, target: Key, bindings: map<Key, Binding>, managed: set<Key>,
                       matched: seq<Option<Binding>>, wanted: Class, kind: Class, idle: nat, k: Key) returns (i: nat)
    requires ValidRules(rules) && Holds(rules, target, bindings, managed, matched)
    requires AllHeld(target, bindings, managed, matched, wanted.subject)
    requires idle < |rules| == |matched| && RuleClass(rules[idle]) == wanted && matched[idle].None?
    requires k in OnTarget(bindings, target, kind) * managed && (kind == wanted || kind == Opposite(wanted))
    ensures i < |matched| && matched[i].Some? && matched[i].value.pk == k
    ensures kind == wanted ==> i in ExactOf(rules, matched, wanted)
    ensures kind == Opposite(wanted) ==> i in ExactOf(rules, matched, Opposite(wanted)) || i in InexactOf(rules, matched, wanted)
  {
    i :| 0 <= i < |matched| && matched[i].Some? && matched[i].value.pk == k;
    assert HeldBy(rules[i], target, bindings, managed, matched[i].value);
  }

  lemma KeysHeld(matched: seq<Option<Binding>>, holders: set<nat>, keys: set<Key>)
    requires forall i :: i in holders ==> i < |matched| && matched[i].Some?
    requires forall k :: k in keys ==> exists i :: i in holders && matched[i].value.pk == k
    ensures |keys| <= |holders|
  {
    var image := map i | i in holders :: matched[i].value.pk;
    forall k | k in keys ensures exists i :: i in holders && image[i] == k {
      var i :| i in holders && matched[i].value.pk == k;
      assert image[i] == k;
    }
    SurjectionSize(holders, image, keys);
  }

  // ---------- one adoption short ----------

  /** The pass stopped with one adoption of the class outstanding. */
  ghost predicate OneAdoptionShort(rules: seq<Rule>, managed: set<Key>, first: seq<Option<Binding>>,
                                   second: seq<Option<Binding>>, keysNow: set<Key>, wanted: Class)
    requires ValidRules(rules) && |first| == |second| == |rules|
  {
    && KeysWhileAdopting(managed, first, second, keysNow)
    && |Matched(rules, PartlyAdopted(first, second, keysNow), wanted)| == |RulesOf(rules, wanted)| - 1
  }

  lemma AllHeldWhileAdopting(rules: seq<Rule>, target: Key, bindings: map<Key, Binding>, managed: set<Key>, ours: seq<Binding>,
                             others: seq<Binding>, first: seq<Option<Binding>>, second: seq<Option<Binding>>,
                             plan: seq<Option<Binding>>, keysNow: set<Key>, wanted: Class, idle: nat)
    requires ValidRules(rules) && Plans(rules, target, bindings, managed, ours, others, first, second, plan)
    requires KeysWhileAdopting(managed, first, second, keysNow)
    requires idle < |rules| && RuleClass(rules[idle]) == wanted && first[idle].None?
    ensures AllHeld(target, bindings, keysNow, PartlyAdopted(first, second, keysNow), wanted.subject)
  {
    var matched := PartlyAdopted(first, second, keysNow);
    forall k | k in keysNow && k in bindings && bindings[k].target == target && ObservedSubject(bindings[k]) == wanted.subject
      ensures exists i :: 0 <= i < |matched| && matched[i].Some? && matched[i].value.pk == k
    {
      if k in managed {
        assert bindings[k] in ours;
        var i :| 0 <= i < |first| && first[i] == Some(bindings[k]);
        assert matched[i] == first[i];
      } else {
        var i :| 0 <= i < |first| && first[i].None? && second[i].Some? && second[i].value.pk == k;
        assert matched[i] == second[i];
      }
    }
  }

  /** What has been adopted is no longer spare. */
  lemma SpareAfterAdopting(rules: seq<Rule>, target: Key, bindings: map<Key, Binding>, managed: set<Key>, ours: seq<Binding>,
                           others: seq<Binding>, first: seq<Option<Binding>>, second: seq<Option<Binding>>,
                           plan: seq<Option<Binding>>, keysNow: set<Key>, wanted: Class)
    requires ValidRules(rules) && Plans(rules, target, bindings, managed, ours, others, first, second, plan)
    requires managed <= keysNow
    ensures |OnTarget(bindings, target, wanted) - keysNow| + |AdoptedSoFar(rules, first, second, keysNow, wanted)|
            <= |OnTarget(bindings, target, wanted) - managed|
  {
    var adopted := AdoptedSoFar(rules, first, second, keysNow, wanted);
    var spare, left := OnTarget(bindings, target, wanted) - managed, OnTarget(bindings, target, wanted) - keysNow;
    forall i | i in adopted ensures second[i].value.pk in spare && second[i].value.pk in keysNow {
      assert second[i].value in others && Exact(rules, second, i);
    }
    hide OnTarget, Split, InOrder, RuleClass, BindingClass, ValidRule, DistinctPks, ValidBindingKeys;
    var image := map i | i in adopted :: second[i].value.pk;
    forall i, j | i in adopted && j in adopted && i != j ensures image[i] != image[j] {
      assert i < j || j < i;
    }
    InjectionSize(adopted, image, spare - left);
    assert left <= spare;
    assert |spare - left| == |spare| - |left|;
  }

  /**
   A class whose unmanaged Bindings suffice for all rules but not for all but one of them twice: a pass that stops one
   adoption short leaves a rule that the next pass creates a Binding for, although one pass would have created none.
   */
  lemma WasteWhileAdopting(rules: seq<Rule>, target: Key, bindings: map<Key, Binding>, managed: set<Key>, ours: seq<Binding>,
                           others: seq<Binding>, first: seq<Option<Binding>>, second: seq<Option<Binding>>,
                           plan: seq<Option<Binding>>, keysNow: set<Key>, wanted: Class)
    requires ValidRules(rules) && Plans(rules, target, bindings, managed, ours, others, first, second, plan)
    requires OneAdoptionShort(rules, managed, first, second, keysNow, wanted)
    ensures var t, u := TallyOf(rules, target, bindings, managed, wanted), TallyOf(rules, target, bindings, keysNow, wanted);
            !t.Recoverable() && t.Served() == t.rules ==> t.Needed() == 0 < u.Needed()
  {
    assert managed <= keysNow;
    hide BestAssignment, Split, InOrder, DistinctPks, ValidBindingKeys, ValidRules, KeysWhileAdopting, Holds, AllHeld, OnTarget,
      RulesOf, RuleClass, AdoptedSoFar, Matched, Combined, PartlyAdopted;
    var matched := PartlyAdopted(first, second, keysNow);
    var idle := IdleRule(rules, matched, wanted);
    IdleIsUnmatched(first, second, keysNow, idle);
    CoveredIsMatched(rules, target, bindings, managed, ours, others, first, wanted);
    PartlyAdoptedHolds(rules, target, bindings, managed, ours, others, first, second, keysNow);
    AllHeldWhileAdopting(rules, target, bindings, managed, ours, others, first, second, plan, keysNow, wanted, idle);
    CoveredExactly(rules, target, bindings, keysNow, matched, wanted, idle);
    AdoptedCount(rules, first, second, keysNow, wanted);
    SpareAfterAdopting(rules, target, bindings, managed, ours, others, first, second, plan, keysNow, wanted);
  }

  lemma IdleIsUnmatched(first: seq<Option<Binding>>, second: seq<Option<Binding>>, keysNow: set<Key>, idle: nat)
    requires |first| == |second| && idle < |first| && PartlyAdopted(first, second, keysNow)[idle].None?
    ensures first[idle].None?
  {}

  lemma IdleRule(rules: seq<Rule>, matched: seq<Option<Binding>>, wanted: Class) returns (idle: nat)
    requires ValidRules(rules) && |matched| == |rules| && |Matched(rules, matched, wanted)| < |RulesOf(rules, wanted)|
    ensures idle < |rules| && RuleClass(rules[idle]) == wanted && matched[idle].None?
  {
    if forall i :: i in RulesOf(rules, wanted) ==> i in Matched(rules, matched, wanted) {
      SubsetSize(RulesOf(rules, wanted), Matched(rules, matched, wanted));
      assert false;
    }
    idle :| idle in RulesOf(rules, wanted) && idle !in Matched(rules, matched, wanted);
  }

  // ---------- the last new Binding lost ----------

  /** The pass created every Binding that the class needs, and stopped before it recorded the last one. */
  ghost predicate LastLost(rules: seq<Rule>, target: Key, before: map<Key, Binding>, managed: set<Key>,
                           plan: seq<Option<Binding>>, kept: seq<Key>, now: map<Key, Binding>, keysNow: set<Key>, wanted: Class)
    requires ValidRules(rules)
  {
    && Progress(rules, target, before, plan, kept, now) && ValidBindingKeys(now)
    && KeysWhileWriting(before, managed, plan, kept, keysNow)
    && |kept| <= |rules| == |plan| && (forall i :: i in RulesOf(rules, wanted) && plan[i].None? ==> i < |kept|)
    && |kept| > 0 && |kept| - 1 in LostOf(rules, kept, keysNow, wanted)
  }

  lemma AllHeldWhileWriting(rules: seq<Rule>, target: Key, before: map<Key, Binding>, managed: set<Key>, ours: seq<Binding>,
                            others: seq<Binding>, first: seq<Option<Binding>>, second: seq<Option<Binding>>,
                            plan: seq<Option<Binding>>, kept: seq<Key>, now: map<Key, Binding>, keysNow: set<Key>,
                            wanted: Class, idle: nat)
    requires ValidRules(rules) && Plans(rules, target, before, managed, ours, others, first, second, plan)
    requires Progress(rules, target, before, plan, kept, now) && ValidBindingKeys(now)
    requires KeysWhileWriting(before, managed, plan, kept, keysNow)
    requires |kept| <= |plan| == |rules| && forall k :: k in kept ==> k in now
    requires idle < |rules| && RuleClass(rules[idle]) == wanted && plan[idle].None?
    ensures AllHeld(target, now, keysNow, Standing(plan, kept, now, keysNow), wanted.subject)
  {
    forall k | k in keysNow && k in now && now[k].target == target && ObservedSubject(now[k]) == wanted.subject
      ensures exists i ::
                && 0 <= i < |plan| && Standing(plan, kept, now, keysNow)[i].Some?
                && Standing(plan, kept, now, keysNow)[i].value.pk == k
    {
      var i := HeldWhileWriting(rules, target, before, managed, ours, others, first, second, plan, kept, now, keysNow, wanted,
                                idle, k);
    }
  }

  lemma HeldWhileWriting(rules: seq<Rule>, target: Key, before: map<Key, Binding>, managed: set<Key>, ours: seq<Binding>,
                         others: seq<Binding>, first: seq<Option<Binding>>, second: seq<Option<Binding>>,
                         plan: seq<Option<Binding>>, kept: seq<Key>, now: map<Key, Binding>, keysNow: set<Key>, wanted: Class,
                         idle: nat, k: Key)
    returns (i: nat)
    requires ValidRules(rules) && Plans(rules, target, before, managed, ours, others, first, second, plan)
    requires Progress(rules, target, before, plan, kept, now) && ValidBindingKeys(now)
    requires KeysWhileWriting(before, managed, plan, kept, keysNow)
    requires |kept| <= |plan| == |rules| && forall k' :: k' in kept ==> k' in now
    requires idle < |rules| && RuleClass(rules[idle]) == wanted && plan[idle].None?
    requires k in keysNow && k in now && now[k].target == target && ObservedSubject(now[k]) == wanted.subject
    ensures i < |plan| && Standing(plan, kept, now, keysNow)[i].Some? && Standing(plan, kept, now, keysNow)[i].value.pk == k
  {
    if k in kept {
      i :| 0 <= i < |kept| && kept[i] == k;
    } else {
      assert k in before && now[k] == before[k];
      assert k in managed ==> k in PlannedKeys(plan) by {
        if k in managed {
          ManagedIsPlanned(rules, target, before, managed, ours, others, first, second, plan, wanted, idle, k);
        }
      }
      hide Plans;
      i :| 0 <= i < |plan| && plan[i].Some? && plan[i].value.pk == k;
      assert i < |kept| ==> kept[i] == plan[i].value.pk by { hide Represents; }
    }
  }

  /** With a rule of the class left without a Binding, every managed Binding of its subject is planned. */
  lemma ManagedIsPlanned(rules: seq<Rule>, target: Key, before: map<Key, Binding>, managed: set<Key>, ours: seq<Binding>,
                         others: seq<Binding>, first: seq<Option<Binding>>, second: seq<Option<Binding>>,
                         plan: seq<Option<Binding>>, wanted: Class, idle: nat, k: Key)
    requires ValidRules(rules) && Plans(rules, target, before, managed, ours, others, first, second, plan)
    requires idle < |rules| && |plan| == |rules| && RuleClass(rules[idle]) == wanted && plan[idle].None?
    requires k in managed && k in before && before[k].target == target && ObservedSubject(before[k]) == wanted.subject
    ensures k in PlannedKeys(plan)
  {
    assert before[k] in ours;
    var i :| 0 <= i < |first| && first[i] == Some(before[k]);
    assert plan[i] == first[i];
    PlannedKey(plan, i);
  }

  /** What is spare after the writes is what no rule adopted, and the lost Binding. */
  lemma SpareAfterWriting(rules: seq<Rule>, target: Key, before: map<Key, Binding>, managed: set<Key>,
                          plan: seq<Option<Binding>>, kept: seq<Key>, now: map<Key, Binding>, keysNow: set<Key>, wanted: Class)
    requires ValidRules(rules) && PlanFits(rules, target, before, managed, plan) && |plan| == |rules|
    requires LastLost(rules, target, before, managed, plan, kept, now, keysNow, wanted)
    ensures |OnTarget(now, target, wanted) - keysNow| + |AdoptedOf(rules, plan, managed, wanted)|
            <= |OnTarget(before, target, wanted) - managed| + 1
  {
    var adopted := AdoptedOf(rules, plan, managed, wanted);
    var spare, left := OnTarget(before, target, wanted) - managed, OnTarget(now, target, wanted) - keysNow;
    var lost := kept[|kept| - 1];
    forall k | k in left && k != lost ensures k in spare && k !in PlannedKeys(plan) {
      StillSpare(rules, target, before, managed, plan, kept, now, keysNow, wanted, k);
    }
    forall i | i in adopted ensures plan[i].value.pk in spare && plan[i].value.pk in PlannedKeys(plan) {
      PlannedKey(plan, i);
      assert Exact(rules, plan, i);
    }
    hide OnTarget, RuleClass, BindingClass, ValidRule, LastLost, PlannedKeys, Represents, AdoptedOf;
    AdoptedArePlanned(rules, plan, managed, wanted);
    var image := map i | i in adopted :: plan[i].value.pk;
    forall i, j | i in adopted && j in adopted && i != j ensures image[i] != image[j] {
      assert i < j || j < i;
    }
    InjectionSize(adopted, image, spare - (left - {lost}));
    assert left - {lost} <= spare;
    assert |spare - (left - {lost})| == |spare| - |left - {lost}|;
    assert |left - {lost}| >= |left| - 1;
  }

  lemma StillSpare(rules: seq<Rule>, target: Key, before: map<Key, Binding>, managed: set<Key>, plan: seq<Option<Binding>>,
                   kept: seq<Key>, now: map<Key, Binding>, keysNow: set<Key>, wanted: Class, k: Key)
    requires ValidRules(rules) && PlanFits(rules, target, before, managed, plan) && |plan| == |rules|
    requires LastLost(rules, target, before, managed, plan, kept, now, keysNow, wanted)
    requires k in OnTarget(now, target, wanted) && k !in keysNow && k != kept[|kept| - 1]
    ensures k in OnTarget(before, target, wanted) && k !in managed && k !in PlannedKeys(plan)
  {
    hide RuleClass, BindingClass, ValidRule, Represents, PlanFits, PlannedKeys;
    forall i | 0 <= i < |kept| ensures kept[i] != k {
      assert i == |kept| - 1 || kept[i] in keysNow;
    }
    assert k in before && now[k] == before[k];
  }

  /**
   A class in which a Binding must be created, and in which the lost one is no use to the next pass: it is offered to a
   rule that is served already, so that the next pass creates one Binding more than was needed.
   */
  lemma WasteWhileWriting(rules: seq<Rule>, target: Key, before: map<Key, Binding>, managed: set<Key>, ours: seq<Binding>,
                          others: seq<Binding>, first: seq<Option<Binding>>, second: seq<Option<Binding>>,
                          plan: seq<Option<Binding>>, kept: seq<Key>, now: map<Key, Binding>, keysNow: set<Key>, wanted: Class)
    requires ValidRules(rules) && Plans(rules, target, before, managed, ours, others, first, second, plan)
    requires LastLost(rules, target, before, managed, plan, kept, now, keysNow, wanted)
    ensures var t, u := TallyOf(rules, target, before, managed, wanted), TallyOf(rules, target, now, keysNow, wanted);
            !t.Recoverable() ==> |NewOf(before, now, target, wanted)| == t.Needed() && u.Needed() > 0
  {
    hide Plans, LastLost, OnTarget, NewOf, AdoptedOf, RulesOf, PlanFits, ValidRules, Matched;
    PlansFit(rules, target, before, managed, ours, others, first, second, plan, wanted);
    SpareAfterWriting(rules, target, before, managed, plan, kept, now, keysNow, wanted);
    WrittenCounts(rules, target, before, managed, ours, others, first, second, plan, kept, now, keysNow, wanted);
  }

  lemma WrittenCounts(rules: seq<Rule>, target: Key, before: map<Key, Binding>, managed: set<Key>, ours: seq<Binding>,
                      others: seq<Binding>, first: seq<Option<Binding>>, second: seq<Option<Binding>>,
                      plan: seq<Option<Binding>>, kept: seq<Key>, now: map<Key, Binding>, keysNow: set<Key>, wanted: Class)
    requires ValidRules(rules) && Plans(rules, target, before, managed, ours, others, first, second, plan)
    requires PlanFits(rules, target, before, managed, plan) && |plan| == |rules|
             && CountsOf(rules, target, before, managed, plan, wanted)
    requires LastLost(rules, target, before, managed, plan, kept, now, keysNow, wanted)
    ensures |NewOf(before, now, target, wanted)| == TallyOf(rules, target, before, managed, wanted).Needed()
    ensures TallyOf(rules, target, now, keysNow, wanted).covered <= |RulesOf(rules, wanted)| - 1
  {
    KeptAreNow(rules, target, before, plan, kept, now);
    var idle := |kept| - 1;
    LostIsLast(rules, target, before, managed, plan, kept, now, keysNow, wanted);
    assert idle in LostOf(rules, kept, keysNow, wanted) && idle in CreatedOf(rules, plan, |kept|, wanted);
    assert CreatedOf(rules, plan, |kept|, wanted)
           == CreatedOf(rules, plan, |rules|, wanted) by { AllWritten(rules, plan, |kept|, wanted); }
    assert RuleClass(rules[idle]) == wanted && plan[idle].None? && Standing(plan, kept, now, keysNow)[idle].None?;
    StandingHolds(rules, target, before, managed, plan, kept, now, keysNow);
    AllHeldWhileWriting(rules, target, before, managed, ours, others, first, second, plan, kept, now, keysNow, wanted, idle);
    CoveredExactly(rules, target, now, keysNow, Standing(plan, kept, now, keysNow), wanted, idle);
    StandingCount(rules, target, before, managed, plan, kept, now, keysNow, wanted);
    NewCount(rules, target, before, managed, plan, kept, now, wanted);
    AllCreated(rules, plan, wanted);
    assert |LostOf(rules, kept, keysNow, wanted)| == 1;
  }

  lemma AllWritten(rules: seq<Rule>, plan: seq<Option<Binding>>, done: nat, wanted: Class)
    requires ValidRules(rules) && |plan| == |rules| && done <= |rules|
    requires forall i :: i in RulesOf(rules, wanted) && plan[i].None? ==> i < done
    ensures CreatedOf(rules, plan, done, wanted) == CreatedOf(rules, plan, |rules|, wanted)
  {
    hide RuleClass;
    forall i | i in CreatedOf(rules, plan, |rules|, wanted) ensures i < done {
      assert i in RulesOf(rules, wanted);
    }
  }

  // ---------- every state ----------

  /** What is managed after the adoptions for the first rules. */
  ghost function AdoptedUpTo(managed: set<Key>, first: seq<Option<Binding>>, second: seq<Option<Binding>>, done: nat): set<Key>
    requires done <= |first| == |second|
  {
    managed + set i | 0 <= i < done && first[i].None? && second[i].Some? :: second[i].value.pk
  }

  /** The Bindings, and what is managed, at a point where the pass may stop before it has written and recorded everything. */
  ghost predicate Stops(rules: seq<Rule>, target: Key, before: map<Key, Binding>, managed: set<Key>,
                        first: seq<Option<Binding>>, second: seq<Option<Binding>>, plan: seq<Option<Binding>>,
                        now: map<Key, Binding>, keysNow: set<Key>)
    requires ValidRules(rules) && |first| == |second|
  {
    || (now == before && exists done :: 0 <= done <= |first| && keysNow == AdoptedUpTo(managed, first, second, done))
    || (ValidBindingKeys(now) && exists kept ::
        Progress(rules, target, before, plan, kept, now) && KeysWhileWriting(before, managed, plan, kept, keysNow))
  }

  lemma AdoptedUpToKeys(managed: set<Key>, first: seq<Option<Binding>>, second: seq<Option<Binding>>, done: nat)
    requires done <= |first| == |second|
    ensures KeysWhileAdopting(managed, first, second, AdoptedUpTo(managed, first, second, done))
  {}

  /** From a recoverable tally no stop makes the passes create more than was needed. */
  lemma NoWasteWhenRecoverable(rules: seq<Rule>, target: Key, before: map<Key, Binding>, managed: set<Key>, ours: seq<Binding>,
                               others: seq<Binding>, first: seq<Option<Binding>>, second: seq<Option<Binding>>,
                               plan: seq<Option<Binding>>, now: map<Key, Binding>, keysNow: set<Key>, wanted: Class)
    requires ValidRules(rules) && Plans(rules, target, before, managed, ours, others, first, second, plan)
    requires Stops(rules, target, before, managed, first, second, plan, now, keysNow)
    requires TallyOf(rules, target, before, managed, wanted).Recoverable()
    ensures |NewOf(before, now, target, wanted)| + TallyOf(rules, target, now, keysNow, wanted).Needed()
            <= TallyOf(rules, target, before, managed, wanted).Needed()
  {
    if now == before && exists done :: 0 <= done <= |first| && keysNow == AdoptedUpTo(managed, first, second, done) {
      var done :| 0 <= done <= |first| && keysNow == AdoptedUpTo(managed, first, second, done);
      AdoptedUpToKeys(managed, first, second, done);
      hide TallyOf, OnTarget, BestAssignment, Split, InOrder, DistinctPks, ValidBindingKeys, ValidRules, AdoptedUpTo, Combined;
      AttemptAdopting(rules, target, before, managed, ours, others, first, second, keysNow, wanted);
      assert NewOf(before, now, target, wanted) == {} by { OnTargetIsStored(before, target, wanted); }
      RecoverableStep(TallyOf(rules, target, before, managed, wanted), TallyOf(rules, target, now, keysNow, wanted), 0);
    } else {
      var kept :| Progress(rules, target, before, plan, kept, now) && KeysWhileWriting(before, managed, plan, kept, keysNow);
      hide TallyOf, OnTarget, NewOf, Progress, KeysWhileWriting, Plans, ValidRules;
      AllPlansCount(rules, target, before, managed, ours, others, first, second, plan);
      AttemptWriting(rules, target, before, managed, plan, kept, now, keysNow, wanted);
      RecoverableStep(TallyOf(rules, target, before, managed, wanted), TallyOf(rules, target, now, keysNow, wanted),
                      |NewOf(before, now, target, wanted)|);
    }
  }

  lemma AllPlansCount(rules: seq<Rule>, target: Key, bindings: map<Key, Binding>, managed: set<Key>, ours: seq<Binding>,
                      others: seq<Binding>, first: seq<Option<Binding>>, second: seq<Option<Binding>>,
                      plan: seq<Option<Binding>>)
    requires ValidRules(rules) && Plans(rules, target, bindings, managed, ours, others, first, second, plan)
    ensures PlanFits(rules, target, bindings, managed, plan) && Counts(rules, target, bindings, managed, plan)
  {
    hide Plans, PlanFits, CountsOf;
    PlansFit(rules, target, bindings, managed, ours, others, first, second, plan, Class(Subject(0, 0, 0), false));
    forall wanted ensures CountsOf(rules, target, bindings, managed, plan, wanted) {
      PlansFit(rules, target, bindings, managed, ours, others, first, second, plan, wanted);
    }
  }

  lemma {:induction false} LastOf(s: set<nat>) returns (last: nat)
    requires s != {}
    ensures last in s && forall i :: i in s ==> i <= last
  {
    var x :| x in s;
    if s == {x} {
      last := x;
    } else {
      var rest := LastOf(s - {x});
      last := if rest < x then x else rest;
      forall i | i in s ensures i <= last {
        assert i == x || i in s - {x};
      }
    }
  }

  /** When unmanaged Bindings suffice for every rule, stopping right before the last adoption of the class is one short. */
  lemma StopBeforeLastAdoption(rules: seq<Rule>, target: Key, bindings: map<Key, Binding>, managed: set<Key>,
                               ours: seq<Binding>, others: seq<Binding>, first: seq<Option<Binding>>,
                               second: seq<Option<Binding>>, plan: seq<Option<Binding>>, wanted: Class) returns (done: nat)
    requires ValidRules(rules) && Plans(rules, target, bindings, managed, ours, others, first, second, plan)
    requires var t := TallyOf(rules, target, bindings, managed, wanted); t.covered < t.rules == t.Served()
    ensures done <= |first| && OneAdoptionShort(rules, managed, first, second, AdoptedUpTo(managed, first, second, done), wanted)
  {
    AllOffered(rules, target, bindings, managed, ours, others, first, second, plan, wanted);
    done := LastOf(RulesOf(rules, wanted) - Matched(rules, first, wanted));
    AdoptedUpToKeys(managed, first, second, done);
    LastIsNotAdopted(rules, target, bindings, managed, ours, others, first, second, plan, done);
    hide Plans, AdoptedUpTo, KeysWhileAdopting;
    AllButLast(rules, managed, first, second, wanted, done);
  }

  lemma AllButLast(rules: seq<Rule>, managed: set<Key>, first: seq<Option<Binding>>, second: seq<Option<Binding>>,
                   wanted: Class, done: nat)
    requires ValidRules(rules) && |first| == |second| == |rules| && Matched(rules, second, wanted) == RulesOf(rules, wanted)
    requires done in RulesOf(rules, wanted) - Matched(rules, first, wanted)
    requires forall i :: i in RulesOf(rules, wanted) - Matched(rules, first, wanted) ==> i <= done
    requires second[done].Some? ==> second[done].value.pk !in AdoptedUpTo(managed, first, second, done)
    ensures |Matched(rules, PartlyAdopted(first, second, AdoptedUpTo(managed, first, second, done)), wanted)|
            == |RulesOf(rules, wanted)| - 1
  {
    hide RuleClass, ValidRule;
    var all := RulesOf(rules, wanted);
    var matched := PartlyAdopted(first, second, AdoptedUpTo(managed, first, second, done));
    forall i | i in all && i != done ensures matched[i].Some? {
      assert i in Matched(rules, second, wanted);
      assert first[i].None? ==> i in all - Matched(rules, first, wanted) && i < done;
    }
    hide AdoptedUpTo, PartlyAdopted;
    assert Matched(rules, matched, wanted) == all - {done};
  }

  /** Every rule of the class is offered an unmanaged Binding, and not all of them have a managed one. */
  lemma AllOffered(rules: seq<Rule>, target: Key, bindings: map<Key, Binding>, managed: set<Key>, ours: seq<Binding>,
                   others: seq<Binding>, first: seq<Option<Binding>>, second: seq<Option<Binding>>, plan: seq<Option<Binding>>,
                   wanted: Class)
    requires ValidRules(rules) && Plans(rules, target, bindings, managed, ours, others, first, second, plan)
    requires var t := TallyOf(rules, target, bindings, managed, wanted); t.covered < t.rules == t.Served()
    ensures Matched(rules, second, wanted) == RulesOf(rules, wanted)
    ensures RulesOf(rules, wanted) - Matched(rules, first, wanted) != {}
  {
    hide BestAssignment, Split, InOrder, DistinctPks, ValidBindingKeys, ValidRules, OnTarget, RulesOf, Matched, ExactOf, BindingsOf,
      Combined;
    CoveredIsMatched(rules, target, bindings, managed, ours, others, first, wanted);
    SpareIsOffered(target, bindings, managed, ours, others, wanted);
    ExactMatchesOptimal(rules, others, true, second, wanted);
    OffersAreExact(rules, others, second, wanted);
    SubsetOfEqualSize(Matched(rules, second, wanted), RulesOf(rules, wanted));
    var idle := IdleRule(rules, first, wanted);
    assert idle in RulesOf(rules, wanted) - Matched(rules, first, wanted) by { IdleIsOpen(rules, first, wanted, idle); }
  }

  lemma SpareIsOffered(target: Key, bindings: map<Key, Binding>, managed: set<Key>, ours: seq<Binding>, others: seq<Binding>,
                       wanted: Class)
    requires ValidBindingKeys(bindings) && Split(target, bindings, managed, ours, others)
    ensures |BindingsOf(others, wanted)| == |OnTarget(bindings, target, wanted) - managed|
  {
    SpareIsListed(target, bindings, managed, others, wanted);
  }

  lemma OffersAreExact(rules: seq<Rule>, others: seq<Binding>, second: seq<Option<Binding>>, wanted: Class)
    requires ValidRules(rules) && BestAssignment(rules, others, true, second)
    ensures |second| == |rules| && Matched(rules, second, wanted) == ExactOf(rules, second, wanted) <= RulesOf(rules, wanted)
  {
    hide RuleClass, BindingClass;
  }

  lemma IdleIsOpen(rules: seq<Rule>, matched: seq<Option<Binding>>, wanted: Class, idle: nat)
    requires ValidRules(rules) && |matched| == |rules| && idle < |rules| && RuleClass(rules[idle]) == wanted && matched[idle].None?
    ensures idle in RulesOf(rules, wanted) - Matched(rules, matched, wanted)
  {}

  lemma LastIsNotAdopted(rules: seq<Rule>, target: Key, bindings: map<Key, Binding>, managed: set<Key>, ours: seq<Binding>,
                         others: seq<Binding>, first: seq<Option<Binding>>, second: seq<Option<Binding>>,
                         plan: seq<Option<Binding>>, done: nat)
    requires ValidRules(rules) && Plans(rules, target, bindings, managed, ours, others, first, second, plan) && done < |first|
    ensures second[done].Some? ==> second[done].value.pk !in AdoptedUpTo(managed, first, second, done)
  {
    if second[done].Some? {
      assert second[done].value in others;
    }
  }

  lemma FreshKey(keys: set<Key>) returns (k: Key)
    ensures k !in keys
  {
    if keys == {} {
      k := 0;
    } else {
      var last := LastOf(keys);
      k := last + 1;
    }
  }

  /** What the writes for the first rules make of the Bindings. */
  lemma {:induction false} WriteUpTo(rules: seq<Rule>, target: Key, before: map<Key, Binding>, managed: set<Key>,
                                     plan: seq<Option<Binding>>, done: nat)
    returns (kept: seq<Key>, now: map<Key, Binding>)
    requires ValidRules(rules) && PlanFits(rules, target, before, managed, plan) && ValidBindingKeys(before)
             && done <= |rules| == |plan|
    ensures Progress(rules, target, before, plan, kept, now) && ValidBindingKeys(now) && |kept| == done
    ensures forall i :: 0 <= i < done && plan[i].None? ==> kept[i] !in managed
  {
    if done == 0 {
      return [], before;
    }
    kept, now := WriteUpTo(rules, target, before, managed, plan, done - 1);
    if plan[done - 1].Some? {
      var after := plan[done - 1].value.(negate := Some(rules[done - 1].negate));
      NextPlanned(rules, target, before, managed, plan, kept, now);
      ProgressSync(rules, target, before, managed, plan, kept, now, after);
      kept, now := kept + [plan[done - 1].value.pk], now[plan[done - 1].value.pk := after];
    } else {
      var pk := FreshKey(now.Keys + managed);
      var b := StoredBinding(CreateBindingRequest(DesiredBinding(target, rules[done - 1]), 0), pk);
      CreatedBindingSettled(target, rules[done - 1], 0, pk);
      ProgressCreate(rules, target, before, plan, kept, now, b);
      kept, now := kept + [pk], now[pk := b];
    }
  }

  lemma AdoptionStops(rules: seq<Rule>, target: Key, before: map<Key, Binding>, managed: set<Key>, first: seq<Option<Binding>>,
                      second: seq<Option<Binding>>, plan: seq<Option<Binding>>, done: nat)
    requires ValidRules(rules) && done <= |first| == |second|
    ensures Stops(rules, target, before, managed, first, second, plan, before, AdoptedUpTo(managed, first, second, done))
  {}

  /** From any other tally some stop does, whatever assignment the operator chose. */
  lemma WasteWhenNotRecoverable(rules: seq<Rule>, target: Key, before: map<Key, Binding>, managed: set<Key>, ours: seq<Binding>,
                                others: seq<Binding>, first: seq<Option<Binding>>, second: seq<Option<Binding>>,
                                plan: seq<Option<Binding>>, wanted: Class)
    returns (now: map<Key, Binding>, keysNow: set<Key>)
    requires ValidRules(rules) && Plans(rules, target, before, managed, ours, others, first, second, plan)
    requires !TallyOf(rules, target, before, managed, wanted).Recoverable()
    ensures Stops(rules, target, before, managed, first, second, plan, now, keysNow)
    ensures |NewOf(before, now, target, wanted)| + TallyOf(rules, target, now, keysNow, wanted).Needed()
            > TallyOf(rules, target, before, managed, wanted).Needed()
  {
    assert |first| == |second|;
    hide Plans, AdoptedUpTo, TallyOf, NewOf, OneAdoptionShort, Stops;
    var t := TallyOf(rules, target, before, managed, wanted);
    if t.Served() == t.rules {
      var done := StopBeforeLastAdoption(rules, target, before, managed, ours, others, first, second, plan, wanted);
      now, keysNow := before, AdoptedUpTo(managed, first, second, done);
      AdoptionStops(rules, target, before, managed, first, second, plan, done);
      WasteWhileAdopting(rules, target, before, managed, ours, others, first, second, plan, keysNow, wanted);
    } else {
      now, keysNow := StopBeforeLastRecord(rules, target, before, managed, ours, others, first, second, plan, wanted);
    }
  }

  /** When a Binding must be created for the class, the pass can stop before it records the last one. */
  lemma StopBeforeLastRecord(rules: seq<Rule>, target: Key, before: map<Key, Binding>, managed: set<Key>, ours: seq<Binding>,
                             others: seq<Binding>, first: seq<Option<Binding>>, second: seq<Option<Binding>>,
                             plan: seq<Option<Binding>>, wanted: Class)
    returns (now: map<Key, Binding>, keysNow: set<Key>)
    requires ValidRules(rules) && Plans(rules, target, before, managed, ours, others, first, second, plan)
    requires var t := TallyOf(rules, target, before, managed, wanted); !t.Recoverable() && t.Served() < t.rules
    ensures Stops(rules, target, before, managed, first, second, plan, now, keysNow)
    ensures |NewOf(before, now, target, wanted)| + TallyOf(rules, target, now, keysNow, wanted).Needed()
            > TallyOf(rules, target, before, managed, wanted).Needed()
  {
    PlansFit(rules, target, before, managed, ours, others, first, second, plan, wanted);
    assert ValidBindingKeys(before);
    hide Plans, OnTarget, NewOf, PlanFits, ValidBindingKeys, AdoptedOf;
    var last := LastUnplanned(rules, plan, wanted);
    var kept;
    kept, now := WriteUpTo(rules, target, before, managed, plan, last + 1);
    keysNow := ManagedWithoutLast(managed, plan, kept);
    LostHere(rules, target, before, managed, first, second, plan, kept, now, wanted);
    hide LastLost, Progress, Stops;
    WasteWhileWriting(rules, target, before, managed, ours, others, first, second, plan, kept, now, keysNow, wanted);
  }

  lemma LastUnplanned(rules: seq<Rule>, plan: seq<Option<Binding>>, wanted: Class) returns (last: nat)
    requires ValidRules(rules) && |plan| == |rules| && |Matched(rules, plan, wanted)| < |RulesOf(rules, wanted)|
    ensures last < |rules| && RuleClass(rules[last]) == wanted && plan[last].None?
    ensures forall i :: i in RulesOf(rules, wanted) && plan[i].None? ==> i <= last
  {
    var idle := IdleRule(rules, plan, wanted);
    IdleIsOpen(rules, plan, wanted, idle);
    forall i | i in RulesOf(rules, wanted) && plan[i].None? ensures i in RulesOf(rules, wanted) - Matched(rules, plan, wanted) {
      IdleIsOpen(rules, plan, wanted, i);
    }
    hide RuleClass;
    last := LastOf(RulesOf(rules, wanted) - Matched(rules, plan, wanted));
  }

  /** What is managed when everything but the last new Binding has been recorded. */
  ghost function ManagedWithoutLast(managed: set<Key>, plan: seq<Option<Binding>>, kept: seq<Key>): set<Key>
    requires |kept| > 0
  {
    managed + PlannedKeys(plan) + Elements(kept[..|kept| - 1])
  }

  lemma LostHere(rules: seq<Rule>, target: Key, before: map<Key, Binding>, managed: set<Key>, first: seq<Option<Binding>>,
                 second: seq<Option<Binding>>, plan: seq<Option<Binding>>, kept: seq<Key>, now: map<Key, Binding>,
                 wanted: Class)
    requires ValidRules(rules) && PlanFits(rules, target, before, managed, plan) && |first| == |second|
    requires Progress(rules, target, before, plan, kept, now) && ValidBindingKeys(now) && 0 < |kept| <= |rules| == |plan|
    requires plan[|kept| - 1].None? && RuleClass(rules[|kept| - 1]) == wanted && kept[|kept| - 1] !in managed
    requires forall i :: i in RulesOf(rules, wanted) && plan[i].None? ==> i < |kept|
    ensures LastLost(rules, target, before, managed, plan, kept, now, ManagedWithoutLast(managed, plan, kept), wanted)
    ensures Stops(rules, target, before, managed, first, second, plan, now, ManagedWithoutLast(managed, plan, kept))
  {
    var keysNow, last := ManagedWithoutLast(managed, plan, kept), kept[|kept| - 1];
    KeptDistinct(rules, target, before, plan, kept, now);
    NewIsKept(rules, target, before, managed, plan, kept, now, |kept| - 1);
    PlannedAreStored(rules, target, before, managed, plan);
    hide PlanFits, Represents, RuleClass, ValidRule, PlannedKeys;
    assert forall k :: k in kept[..|kept| - 1] ==> k in kept;
    forall i | 0 <= i < |kept| - 1 ensures kept[i] in keysNow {
      assert kept[i] == kept[..|kept| - 1][i];
    }
    assert KeysWhileWriting(before, managed, plan, kept, keysNow);
  }

  lemma PlannedAreStored(rules: seq<Rule>, target: Key, before: map<Key, Binding>, managed: set<Key>, plan: seq<Option<Binding>>)
    requires ValidRules(rules) && PlanFits(rules, target, before, managed, plan)
    ensures PlannedKeys(plan) <= before.Keys
  {}

  /**
   The condition is exact in every state and for every assignment that the operator may choose: a class is recoverable
   if and only if, wherever the pass stops, what it has created and what the next pass will create are together no more
   than what one uninterrupted pass creates.
   */
  lemma RecoverableStates(rules: seq<Rule>, target: Key, before: map<Key, Binding>, managed: set<Key>, ours: seq<Binding>,
                          others: seq<Binding>, first: seq<Option<Binding>>, second: seq<Option<Binding>>,
                          plan: seq<Option<Binding>>, wanted: Class)
    requires ValidRules(rules) && Plans(rules, target, before, managed, ours, others, first, second, plan) && |first| == |second|
    ensures TallyOf(rules, target, before, managed, wanted).Recoverable() <==>
              forall now, keysNow :: Stops(rules, target, before, managed, first, second, plan, now, keysNow) ==>
                |NewOf(before, now, target, wanted)| + TallyOf(rules, target, now, keysNow, wanted).Needed()
                <= TallyOf(rules, target, before, managed, wanted).Needed()
  {
    hide Stops, Plans, TallyOf, NewOf, Tally.Recoverable, Tally.Needed;
    if TallyOf(rules, target, before, managed, wanted).Recoverable() {
      forall now, keysNow | Stops(rules, target, before, managed, first, second, plan, now, keysNow)
        ensures |NewOf(before, now, target, wanted)| + TallyOf(rules, target, now, keysNow, wanted).Needed()
                <= TallyOf(rules, target, before, managed, wanted).Needed()
      {
        NoWasteWhenRecoverable(rules, target, before, managed, ours, others, first, second, plan, now, keysNow, wanted);
      }
    } else {
      var now, keysNow := WasteWhenNotRecoverable(rules, target, before, managed, ours, others, first, second, plan, wanted);
    }
  }

  /** Two equal rules and a target without Bindings: one pass creates two Bindings, an interrupted one and the next create three. */
  lemma EqualRulesCreateThree(rule: Rule, target: Key) returns (now: map<Key, Binding>, keysNow: set<Key>)
    requires ValidRule(rule)
    ensures var rules, none := [rule, rule], [None, None];
            && Plans(rules, target, map[], {}, [], [], none, none, none)
            && Stops(rules, target, map[], {}, none, none, none, now, keysNow)
            && TallyOf(rules, target, map[], {}, RuleClass(rule)).Needed() == 2
            && |NewOf(map[], now, target, RuleClass(rule))| + TallyOf(rules, target, now, keysNow, RuleClass(rule)).Needed() >= 3
  {
    var rules, none: seq<Option<Binding>> := [rule, rule], [None, None];
    var wanted := RuleClass(rule);
    assert RulesOf(rules, wanted) == {0, 1};
    assert OnTarget(map[], target, wanted) == {} && OnTarget(map[], target, Opposite(wanted)) == {};
    now, keysNow := WasteWhenNotRecoverable(rules, target, map[], {}, [], [], none, none, none, wanted);
  }
}
