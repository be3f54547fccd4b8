/** What a pass over the Bindings does to the tally of every class, wherever it stops. */
module BindingAttempts {
  import opened Base
  import opened Api
  import opened Matching
  import opened BindingPlan
  import opened BindingTally

  // ---------- the plan ----------

  /** The rules of a class that the plan serves with an unmanaged Binding. */
  ghost function AdoptedOf(rules: seq<Rule>, plan: seq<Option<Binding>>, managed: set<Key>, wanted: Class): set<nat>
    requires ValidRules(rules) && |plan| == |rules|
  {
    set i | i in Matched(rules, plan, wanted) && plan[i].value.pk !in managed
  }

  /** The plan serves what the tally of every class says, and adopts what the managed Bindings do not cover. */
  ghost predicate Counts(rules: seq<Rule>, target: Key, before: map<Key, Binding>, managed: set<Key>, plan: seq<Option<Binding>>)
    requires ValidRules(rules)
  {
    && |plan| == |rules|
    && forall wanted :: CountsOf(rules, target, before, managed, plan, wanted)
  }

  ghost predicate CountsOf(rules: seq<Rule>, target: Key, before: map<Key, Binding>, managed: set<Key>,
                           plan: seq<Option<Binding>>, wanted: Class)
    requires ValidRules(rules) && |plan| == |rules|
  {
    var t := TallyOf(rules, target, before, managed, wanted);
    && |Matched(rules, plan, wanted)| == t.Served()
    && |AdoptedOf(rules, plan, managed, wanted)| == t.Served() - t.covered
  }

  lemma SpareIsListed(target: Key, bindings: map<Key, Binding>, managed: set<Key>, others: seq<Binding>, wanted: Class)
    requires ValidBindingKeys(bindings)
    requires forall b :: b in others <==> b.pk in bindings && bindings[b.pk] == b && b.target == target && b.pk !in managed
    ensures |BindingsOf(others, wanted)| == |OnTarget(bindings, target, wanted) - managed|
  {
    hide BindingClass;
    ListedOfClass(target, bindings, others, bindings.Keys - managed, wanted);
    assert OnTarget(bindings, target, wanted) * (bindings.Keys - managed) == OnTarget(bindings, target, wanted) - managed;
  }

  lemma PlanCounts(rules: seq<Rule>, target: Key, before: map<Key, Binding>, managed: set<Key>, ours: seq<Binding>,
                   others: seq<Binding>, first: seq<Option<Binding>>, second: seq<Option<Binding>>, plan: seq<Option<Binding>>,
                   wanted: Class)
    requires ValidRules(rules) && ValidBindingKeys(before) && DistinctPks(ours) && DistinctPks(others)
    requires Split(target, before, managed, ours, others) && Combined(first, second, plan)
    requires BestAssignment(rules, ours, false, first) && BestAssignment(rules, others, true, second)
    requires |first| == |second| == |rules| && InOrder(rules, first) && InOrder(rules, second)
    ensures CountsOf(rules, target, before, managed, plan, wanted)
  {
    CoveredIsMatched(rules, target, before, managed, ours, others, first, wanted);
    SpareIsListed(target, before, managed, others, wanted);
    AdoptionLeaves(rules, ours, others, first, second, plan, wanted);
    MatchedAreRules(rules, plan, wanted);
    AdoptedAreUnmatched(rules, target, before, managed, ours, others, first, second, plan, wanted);
  }

  lemma AdoptedAreUnmatched(rules: seq<Rule>, target: Key, before: map<Key, Binding>, managed: set<Key>, ours: seq<Binding>,
                            others: seq<Binding>, first: seq<Option<Binding>>, second: seq<Option<Binding>>,
                            plan: seq<Option<Binding>>, wanted: Class)
    requires ValidRules(rules) && Split(target, before, managed, ours, others) && Combined(first, second, plan)
    requires BestAssignment(rules, ours, false, first) && BestAssignment(rules, others, true, second)
             && |first| == |second| == |rules|
    ensures |AdoptedOf(rules, plan, managed, wanted)| == |Matched(rules, plan, wanted)| - |Matched(rules, first, wanted)|
  {
    var f, all, adopted := Matched(rules, first, wanted), Matched(rules, plan, wanted), AdoptedOf(rules, plan, managed, wanted);
    forall i | i in all ensures i in adopted <==> i !in f {
      assert first[i].Some? ==> first[i].value in ours;
      assert first[i].None? ==> second[i].value in others;
    }
    assert all == f + adopted;
  }

  // ---------- a pass that stops while it adopts ----------

  /** The assignment that the managed Bindings make when some of the planned adoptions have happened. */
  ghost function PartlyAdopted(first: seq<Option<Binding>>, second: seq<Option<Binding>>,
                               keysNow: set<Key>): (r: seq<Option<Binding>>)
    requires |first| == |second|
    ensures |r| == |first|
  {
    seq(|first|, i requires 0 <= i < |first| =>
      if first[i].Some? then first[i] else if second[i].Some? && second[i].value.pk in keysNow then second[i] else None)
  }

  /** Only Bindings that rules without a managed one take have been adopted. */
  ghost predicate KeysWhileAdopting(managed: set<Key>, first: seq<Option<Binding>>, second: seq<Option<Binding>>,
                                    keysNow: set<Key>) {
    && |first| == |second| && managed <= keysNow
    && forall k :: k in keysNow && k !in managed ==>
      exists i :: 0 <= i < |first| && first[i].None? && second[i].Some? && second[i].value.pk == k
  }

  lemma PartlyAdoptedHolds(rules: seq<Rule>, target: Key, bindings: map<Key, Binding>, managed: set<Key>, ours: seq<Binding>,
                           others: seq<Binding>, first: seq<Option<Binding>>, second: seq<Option<Binding>>, keysNow: set<Key>)
    requires ValidRules(rules) && Split(target, bindings, managed, ours, others) && |first| == |second| == |rules|
    requires BestAssignment(rules, ours, false, first) && BestAssignment(rules, others, true, second)
    requires managed <= keysNow
    ensures Holds(rules, target, bindings, keysNow, PartlyAdopted(first, second, keysNow))
  {
    var matched := PartlyAdopted(first, second, keysNow);
    forall i | 0 <= i < |rules| && matched[i].Some?
      ensures first[i].Some? ==> matched[i].value.pk in managed && (Exact(rules, matched, i) <==> Exact(rules, first, i))
      ensures first[i].None? ==> matched[i].value.pk !in managed && Exact(rules, matched, i)
      ensures HeldBy(rules[i], target, bindings, keysNow, matched[i].value)
    {
      assert first[i].Some? ==> first[i].value in ours;
      assert first[i].None? ==> second[i].value in others && Exact(rules, second, i);
    }
    forall i, j | && 0 <= i < |rules| && 0 <= j < |rules| && matched[i].Some? && !Exact(rules, matched, i)
                  && RuleClass(rules[j]) == BindingClass(matched[i].value)
      ensures Exact(rules, matched, j)
    {
      InexactMatchIsSpare(rules, ours, first, i, j);
    }
  }

  /** The rules of a class that an unmanaged Binding has been adopted for. */
  ghost function AdoptedSoFar(rules: seq<Rule>, first: seq<Option<Binding>>, second: seq<Option<Binding>>, keysNow: set<Key>,
                              wanted: Class): set<nat>
    requires ValidRules(rules) && |first| == |second| == |rules|
  {
    set i | 0 <= i < |rules| && RuleClass(rules[i]) == wanted && first[i].None? && second[i].Some? && second[i].value.pk in keysNow
  }

  lemma AttemptAdopting(rules: seq<Rule>, target: Key, bindings: map<Key, Binding>, managed: set<Key>, ours: seq<Binding>,
                        others: seq<Binding>, first: seq<Option<Binding>>, second: seq<Option<Binding>>, keysNow: set<Key>,
                        wanted: Class)
    requires ValidRules(rules) && ValidBindingKeys(bindings) && DistinctPks(ours) && DistinctPks(others)
    requires Split(target, bindings, managed, ours, others)
    requires BestAssignment(rules, ours, false, first) && BestAssignment(rules, others, true, second)
    requires |first| == |second| == |rules| && InOrder(rules, first) && InOrder(rules, second)
    requires KeysWhileAdopting(managed, first, second, keysNow)
    ensures Attempt(TallyOf(rules, target, bindings, managed, wanted), TallyOf(rules, target, bindings, keysNow, wanted), 0)
  {
    hide BestAssignment, Split, InOrder, DistinctPks, ValidBindingKeys, ValidRules, Holds, OnTarget, RulesOf, AdoptedSoFar, Matched,
      AdoptedOf, Combined, PartlyAdopted;
    var adopted := AdoptedSoFar(rules, first, second, keysNow, wanted);
    CoveredIsMatched(rules, target, bindings, managed, ours, others, first, wanted);
    PartlyAdoptedHolds(rules, target, bindings, managed, ours, others, first, second, keysNow);
    CoveredBound(rules, target, bindings, keysNow, PartlyAdopted(first, second, keysNow), wanted);
    AdoptedCount(rules, first, second, keysNow, wanted);
    AdoptedFromSpare(rules, target, bindings, managed, ours, others, first, second, keysNow, wanted);
    var plan := CombinedPlan(first, second);
    PlanCounts(rules, target, bindings, managed, ours, others, first, second, plan, wanted);
    AdoptedWithinPlan(rules, first, second, plan, keysNow, wanted);
  }

  function CombinedPlan(first: seq<Option<Binding>>, second: seq<Option<Binding>>): (plan: seq<Option<Binding>>)
    requires |first| == |second|
    ensures Combined(first, second, plan)
  {
    seq(|first|, i requires 0 <= i < |first| => if first[i].Some? then first[i] else second[i])
  }

  lemma AdoptedCount(rules: seq<Rule>, first: seq<Option<Binding>>, second: seq<Option<Binding>>, keysNow: set<Key>, wanted: Class)
    requires ValidRules(rules) && |first| == |second| == |rules|
    ensures |Matched(rules, PartlyAdopted(first, second, keysNow), wanted)|
            == |Matched(rules, first, wanted)| + |AdoptedSoFar(rules, first, second, keysNow, wanted)|
  {
    hide RuleClass;
    assert Matched(rules, PartlyAdopted(first, second, keysNow), wanted)
        == Matched(rules, first, wanted) + AdoptedSoFar(rules, first, second, keysNow, wanted);
  }

  lemma AdoptedWithinPlan(rules: seq<Rule>, first: seq<Option<Binding>>, second: seq<Option<Binding>>,
                          plan: seq<Option<Binding>>, keysNow: set<Key>, wanted: Class)
    requires ValidRules(rules) && |first| == |second| == |rules| && Combined(first, second, plan)
    ensures |Matched(rules, first, wanted)| + |AdoptedSoFar(rules, first, second, keysNow, wanted)| <= |Matched(rules, plan,
              wanted)|
  {
    hide RuleClass;
    DisjointPartsSize(Matched(rules, first, wanted), AdoptedSoFar(rules, first, second, keysNow, wanted),
                      Matched(rules, plan, wanted));
  }

  /** Every adopted Binding served a rule of its class. */
  lemma AdoptedFromSpare(rules: seq<Rule>, target: Key, bindings: map<Key, Binding>, managed: set<Key>, ours: seq<Binding>,
                         others: seq<Binding>, first: seq<Option<Binding>>, second: seq<Option<Binding>>, keysNow: set<Key>,
                         wanted: Class)
    requires ValidRules(rules) && ValidBindingKeys(bindings) && Split(target, bindings, managed, ours, others)
    requires BestAssignment(rules, others, true, second) && |first| == |second| == |rules|
    requires KeysWhileAdopting(managed, first, second, keysNow)
    ensures |OnTarget(bindings, target, wanted) - managed|
            <= |OnTarget(bindings, target, wanted) - keysNow| + |AdoptedSoFar(rules, first, second, keysNow, wanted)|
  {
    hide BestAssignment, Split, ValidBindingKeys, KeysWhileAdopting, OnTarget, BindingClass, RuleClass, ValidRule;
    var adopted := AdoptedSoFar(rules, first, second, keysNow, wanted);
    var image := map i | i in adopted :: second[i].value.pk;
    var spare, left := OnTarget(bindings, target, wanted) - managed, OnTarget(bindings, target, wanted) - keysNow;
    forall k | k in spare && k !in left ensures exists i :: i in adopted && image[i] == k {
      var i := AdoptedFor(rules, target, bindings, managed, ours, others, first, second, keysNow, wanted, k);
      assert image[i] == k;
    }
    TakenBound(spare, left, adopted, image);
  }

  /** What is missing from a set was taken by some rule. */
  lemma TakenBound(all: set<Key>, left: set<Key>, takers: set<nat>, image: map<nat, Key>)
    requires takers <= image.Keys
    requires forall k :: k in all && k !in left ==> exists i :: i in takers && image[i] == k
    ensures |all| <= |left| + |takers|
  {
    var taken := set i | i in takers :: image[i];
    ImageSize(takers, image);
    assert all <= left + taken;
    SubsetSize(all, left + taken);
    assert |left + taken| <= |left| + |taken| by {
      assert left + taken == left + (taken - left);
      SubsetSize(taken - left, taken);
    }
  }

  lemma AdoptedFor(rules: seq<Rule>, target: Key, bindings: map<Key, Binding>, managed: set<Key>, ours: seq<Binding>,
                   others: seq<Binding>, first: seq<Option<Binding>>, second: seq<Option<Binding>>, keysNow: set<Key>,
                   wanted: Class, k: Key)
    returns (i: nat)
    requires ValidRules(rules) && ValidBindingKeys(bindings) && Split(target, bindings, managed, ours, others)
    requires BestAssignment(rules, others, true, second) && |first| == |second| == |rules|
    requires KeysWhileAdopting(managed, first, second, keysNow)
    requires k in OnTarget(bindings, target, wanted) && k !in managed && k in keysNow
    ensures i in AdoptedSoFar(rules, first, second, keysNow, wanted) && second[i].value.pk == k
  {
    hide BindingClass, RuleClass, ObservedSubject, RuleSubject, ValidRule;
    i :| 0 <= i < |first| && first[i].None? && second[i].Some? && second[i].value.pk == k;
    assert second[i].value in others && Exact(rules, second, i);
  }

  // ---------- a pass that stops while it writes ----------

  /** The new Bindings of a class. */
  ghost function NewOf(before: map<Key, Binding>, now: map<Key, Binding>, target: Key, wanted: Class): set<Key> {
    OnTarget(now, target, wanted) - before.Keys
  }

  /** The rules of a class that got a new Binding so far. */
  function CreatedOf(rules: seq<Rule>, plan: seq<Option<Binding>>, done: nat, wanted: Class): set<nat>
    requires ValidRules(rules) && |plan| == |rules| && done <= |rules|
  {
    set i | 0 <= i < done && RuleClass(rules[i]) == wanted && plan[i].None?
  }

  /** Of the Bindings kept so far, all are managed except possibly the last. */
  ghost predicate KeysWhileWriting(before: map<Key, Binding>, managed: set<Key>, plan: seq<Option<Binding>>, kept: seq<Key>,
                                   keysNow: set<Key>) {
    && (forall k :: k in managed && k in before ==> k in keysNow)
    && (forall k :: k in PlannedKeys(plan) ==> k in keysNow)
    && (forall k :: k in keysNow ==> k in managed || k in PlannedKeys(plan) || k in kept)
    && (forall i :: 0 <= i < |kept| - 1 ==> kept[i] in keysNow)
  }

  /** The assignment that the managed Bindings make at this point of the write loop. */
  ghost function Standing(plan: seq<Option<Binding>>, kept: seq<Key>, now: map<Key, Binding>,
                          keysNow: set<Key>): (r: seq<Option<Binding>>)
    requires |kept| <= |plan| && forall k :: k in kept ==> k in now
    ensures |r| == |plan|
  {
    seq(|plan|, i requires 0 <= i < |plan| =>
      if i < |kept| then (if kept[i] in keysNow then Some(now[kept[i]]) else None) else plan[i])
  }

  lemma KeptAreNow(rules: seq<Rule>, target: Key, before: map<Key, Binding>, plan: seq<Option<Binding>>, kept: seq<Key>,
                   now: map<Key, Binding>)
    requires ValidRules(rules) && Progress(rules, target, before, plan, kept, now)
    ensures |kept| <= |plan| == |rules| && forall k :: k in kept ==> k in now
  {
    hide Represents;
  }

  lemma PlannedKey(plan: seq<Option<Binding>>, i: nat)
    requires i < |plan| && plan[i].Some?
    ensures plan[i].value.pk in PlannedKeys(plan)
  {}

  lemma StandingAt(rules: seq<Rule>, target: Key, before: map<Key, Binding>, managed: set<Key>, plan: seq<Option<Binding>>,
                   kept: seq<Key>, now: map<Key, Binding>, keysNow: set<Key>, i: nat)
    requires ValidRules(rules) && PlanFits(rules, target, before, managed, plan) && ValidBindingKeys(now)
    requires Progress(rules, target, before, plan, kept, now) && KeysWhileWriting(before, managed, plan, kept, keysNow)
    requires |kept| <= |plan| == |rules| && (forall k :: k in kept ==> k in now) && i < |rules|
    ensures var matched := Standing(plan, kept, now, keysNow);
            && (matched[i].Some? ==> HeldBy(rules[i], target, now, keysNow, matched[i].value))
            && (matched[i].Some? && i < |kept| ==> matched[i].value.pk == kept[i] && Exact(rules, matched, i))
            && (i >= |kept| ==> matched[i] == plan[i] && (Exact(rules, matched, i) <==> Exact(rules, plan, i)))
            && (matched[i].Some? && i >= |kept| ==> matched[i].value.pk !in kept)
            && (Exact(rules, plan, i) && plan[i].value.pk in managed ==> Exact(rules, matched, i))
  {
    var matched := Standing(plan, kept, now, keysNow);
    if i < |kept| {
      assert Represents(now[kept[i]], target, rules[i]);
    } else if plan[i].Some? {
      NotYetWritten(rules, target, before, managed, plan, kept, now, i);
      PlannedKey(plan, i);
    }
  }

  lemma StandingHolds(rules: seq<Rule>, target: Key, before: map<Key, Binding>, managed: set<Key>, plan: seq<Option<Binding>>,
                      kept: seq<Key>, now: map<Key, Binding>, keysNow: set<Key>)
    requires ValidRules(rules) && PlanFits(rules, target, before, managed, plan) && ValidBindingKeys(now)
    requires Progress(rules, target, before, plan, kept, now) && KeysWhileWriting(before, managed, plan, kept, keysNow)
    requires |kept| <= |plan| == |rules| && forall k :: k in kept ==> k in now
    ensures Holds(rules, target, now, keysNow, Standing(plan, kept, now, keysNow))
  {
    hide HeldBy, ValidRule, RuleClass, BindingClass, Represents, ObservedSubject, RuleSubject, KeysWhileWriting, ValidBindingKeys;
    var matched := Standing(plan, kept, now, keysNow);
    forall i | 0 <= i < |rules|
      ensures matched[i].Some? ==> HeldBy(rules[i], target, now, keysNow, matched[i].value)
      ensures matched[i].Some? && i < |kept| ==> matched[i].value.pk == kept[i] && Exact(rules, matched, i)
      ensures i >= |kept| ==> matched[i] == plan[i] && (Exact(rules, matched, i) <==> Exact(rules, plan, i))
      ensures matched[i].Some? && i >= |kept| ==> matched[i].value.pk !in kept
      ensures Exact(rules, plan, i) && plan[i].value.pk in managed ==> Exact(rules, matched, i)
    {
      StandingAt(rules, target, before, managed, plan, kept, now, keysNow, i);
    }
    hide Standing, Exact;
  }

  /** The rules of a class whose new Binding is not managed: no UUID was recorded and no marker attached. */
  ghost function LostOf(rules: seq<Rule>, kept: seq<Key>, keysNow: set<Key>, wanted: Class): (lost: set<nat>)
    requires ValidRules(rules) && |kept| <= |rules|
  {
    set i | 0 <= i < |kept| && RuleClass(rules[i]) == wanted && kept[i] !in keysNow
  }

  lemma LostIsLast(rules: seq<Rule>, target: Key, before: map<Key, Binding>, managed: set<Key>, plan: seq<Option<Binding>>,
                   kept: seq<Key>, now: map<Key, Binding>, keysNow: set<Key>, wanted: Class)
    requires ValidRules(rules) && Progress(rules, target, before, plan, kept, now) && |kept| <= |rules| == |plan|
    requires KeysWhileWriting(before, managed, plan, kept, keysNow)
    ensures LostOf(rules, kept, keysNow, wanted) <= CreatedOf(rules, plan, |kept|, wanted)
    ensures LostOf(rules, kept, keysNow, wanted) == {} || LostOf(rules, kept, keysNow, wanted) == {|kept| - 1}
  {
    hide RuleClass, ValidRule, Represents;
    var lost := LostOf(rules, kept, keysNow, wanted);
    forall i | i in lost ensures i == |kept| - 1 && plan[i].None? {
      if plan[i].Some? {
        PlannedKey(plan, i);
      }
    }
  }

  lemma StandingSets(rules: seq<Rule>, plan: seq<Option<Binding>>, kept: seq<Key>, now: map<Key, Binding>, keysNow: set<Key>,
                     wanted: Class)
    requires ValidRules(rules) && |kept| <= |rules| == |plan| && forall k :: k in kept ==> k in now
    requires LostOf(rules, kept, keysNow, wanted) <= CreatedOf(rules, plan, |kept|, wanted)
    ensures Matched(rules, Standing(plan, kept, now, keysNow), wanted)
            == Matched(rules, plan, wanted) + (CreatedOf(rules, plan, |kept|, wanted) - LostOf(rules, kept, keysNow, wanted))
  {
    hide RuleClass, ValidRule;
    var planned, created, lost := Matched(rules, plan, wanted), CreatedOf(rules, plan, |kept|, wanted),
        LostOf(rules, kept, keysNow, wanted);
    forall i | 0 <= i < |rules| && RuleClass(rules[i]) == wanted
      ensures i in Matched(rules, Standing(plan, kept, now, keysNow), wanted) <==> i in planned || (i in created && i !in lost)
    {
      assert i < |kept| ==> (i in lost <==> kept[i] !in keysNow) && (i in created <==> plan[i].None?);
    }
  }

  lemma StandingCount(rules: seq<Rule>, target: Key, before: map<Key, Binding>, managed: set<Key>, plan: seq<Option<Binding>>,
                      kept: seq<Key>, now: map<Key, Binding>, keysNow: set<Key>, wanted: Class)
    requires ValidRules(rules) && Progress(rules, target, before, plan, kept, now) && |kept| <= |rules| == |plan|
    requires KeysWhileWriting(before, managed, plan, kept, keysNow) && forall k :: k in kept ==> k in now
    ensures |Matched(rules, Standing(plan, kept, now, keysNow), wanted)|
            == |Matched(rules, plan, wanted)| + |CreatedOf(rules, plan, |kept|, wanted)| - |LostOf(rules, kept, keysNow, wanted)|
    ensures |Matched(rules, plan, wanted)| + |CreatedOf(rules, plan, |kept|, wanted)| <= |RulesOf(rules, wanted)|
  {
    var planned, created, lost := Matched(rules, plan, wanted), CreatedOf(rules, plan, |kept|, wanted),
        LostOf(rules, kept, keysNow, wanted);
    LostIsLast(rules, target, before, managed, plan, kept, now, keysNow, wanted);
    StandingSets(rules, plan, kept, now, keysNow, wanted);
    assert planned !! created && planned <= RulesOf(rules, wanted) && created <= RulesOf(rules, wanted) by {
      hide RuleClass;
    }
    hide Matched, CreatedOf, LostOf, RulesOf, Standing;
    DisjointPartsSize(planned, created, RulesOf(rules, wanted));
    assert |planned + (created - lost)| == |planned| + |created - lost|;
    assert |created - lost| == |created| - |lost|;
  }

  lemma NewIsKept(rules: seq<Rule>, target: Key, before: map<Key, Binding>, managed: set<Key>, plan: seq<Option<Binding>>,
                  kept: seq<Key>, now: map<Key, Binding>, i: nat)
    requires ValidRules(rules) && PlanFits(rules, target, before, managed, plan) && Progress(rules, target, before, plan, kept, now)
    requires i < |kept| <= |rules| == |plan|
    ensures kept[i] in now && now[kept[i]].target == target && BindingClass(now[kept[i]]) == RuleClass(rules[i])
    ensures plan[i].None? <==> kept[i] !in before
  {
    assert Represents(now[kept[i]], target, rules[i]);
  }

  /** Every new Binding of a class is the one of a rule of the class. */
  lemma NewCount(rules: seq<Rule>, target: Key, before: map<Key, Binding>, managed: set<Key>, plan: seq<Option<Binding>>,
                 kept: seq<Key>, now: map<Key, Binding>, wanted: Class)
    requires ValidRules(rules) && PlanFits(rules, target, before, managed, plan) && Progress(rules, target, before, plan, kept, now)
    requires |kept| <= |rules| == |plan|
    ensures |NewOf(before, now, target, wanted)| == |CreatedOf(rules, plan, |kept|, wanted)|
  {
    hide PlanFits, Progress, BindingClass, RuleClass, ValidRule;
    var created := CreatedOf(rules, plan, |kept|, wanted);
    KeptDistinct(rules, target, before, plan, kept, now);
    forall i | 0 <= i < |kept|
      ensures kept[i] in now && now[kept[i]].target == target && BindingClass(now[kept[i]]) == RuleClass(rules[i])
      ensures plan[i].None? <==> kept[i] !in before
    {
      NewIsKept(rules, target, before, managed, plan, kept, now, i);
    }
    NewAreKept(rules, target, before, plan, kept, now);
    forall k | k in NewOf(before, now, target, wanted) ensures exists i :: i in created && kept[i] == k {
      var i :| 0 <= i < |kept| && kept[i] == k;
      assert i in created;
    }
    KeptCount(kept, created, NewOf(before, now, target, wanted));
  }

  /** Every new Binding is the one of a rule. */
  lemma AllNewCount(rules: seq<Rule>, target: Key, before: map<Key, Binding>, managed: set<Key>, plan: seq<Option<Binding>>,
                    kept: seq<Key>, now: map<Key, Binding>)
    requires ValidRules(rules) && PlanFits(rules, target, before, managed, plan) && Progress(rules, target, before, plan, kept, now)
    requires |kept| <= |rules| == |plan|
    ensures |now.Keys - before.Keys| == |CreatedRules(plan, |kept|)|
    ensures forall k :: k in now && k !in before ==> now[k].target == target && k in kept
  {
    hide PlanFits, Progress, ValidRule;
    var created := CreatedRules(plan, |kept|);
    KeptDistinct(rules, target, before, plan, kept, now);
    forall i | 0 <= i < |kept|
      ensures kept[i] in now && now[kept[i]].target == target && (plan[i].None? <==> kept[i] !in before)
    {
      NewIsKept(rules, target, before, managed, plan, kept, now, i);
    }
    NewAreKept(rules, target, before, plan, kept, now);
    forall k | k in now.Keys - before.Keys ensures exists i :: i in created && kept[i] == k {
      var i :| 0 <= i < |kept| && kept[i] == k;
      assert i in created;
    }
    KeptCount(kept, created, now.Keys - before.Keys);
  }

  lemma KeptCount(kept: seq<Key>, rules: set<nat>, keys: set<Key>)
    requires forall i, j :: 0 <= i < |kept| && 0 <= j < |kept| && i != j ==> kept[i] != kept[j]
    requires forall i :: i in rules ==> i < |kept| && kept[i] in keys
    requires forall k :: k in keys ==> exists i :: i in rules && kept[i] == k
    ensures |rules| == |keys|
  {
    var image := map i | i in rules :: kept[i];
    InjectionSize(rules, image, keys);
    forall k | k in keys ensures exists i :: i in rules && image[i] == k {
      var i :| i in rules && kept[i] == k;
      assert image[i] == k;
    }
    SurjectionSize(rules, image, keys);
  }

  lemma NewAreKept(rules: seq<Rule>, target: Key, before: map<Key, Binding>, plan: seq<Option<Binding>>, kept: seq<Key>,
                   now: map<Key, Binding>)
    requires ValidRules(rules) && Progress(rules, target, before, plan, kept, now)
    ensures forall k :: k in now && k !in before ==> k in kept
  {}

  lemma KeptDistinct(rules: seq<Rule>, target: Key, before: map<Key, Binding>, plan: seq<Option<Binding>>, kept: seq<Key>,
                     now: map<Key, Binding>)
    requires ValidRules(rules) && Progress(rules, target, before, plan, kept, now)
    ensures forall i, j :: 0 <= i < |kept| && 0 <= j < |kept| && i != j ==> kept[i] != kept[j]
  {
    hide Represents;
    forall i, j | 0 <= i < |kept| && 0 <= j < |kept| && i != j ensures kept[i] != kept[j] {
      assert i < j || j < i;
    }
  }

  lemma AdoptedIfSpare(rules: seq<Rule>, target: Key, before: map<Key, Binding>, managed: set<Key>, plan: seq<Option<Binding>>,
                       wanted: Class, i: nat)
    requires ValidRules(rules) && PlanFits(rules, target, before, managed, plan) && i < |rules| == |plan| && plan[i].Some?
    ensures plan[i].value.pk in OnTarget(before, target, wanted) && plan[i].value.pk !in managed ==>
              i in AdoptedOf(rules, plan, managed, wanted)
  {
    assert plan[i].value.pk !in managed ==> Exact(rules, plan, i);
  }

  /** An unmanaged Binding that no rule adopted is as it was, and still unmanaged. */
  lemma SpareStays(rules: seq<Rule>, target: Key, before: map<Key, Binding>, managed: set<Key>, plan: seq<Option<Binding>>,
                   kept: seq<Key>, now: map<Key, Binding>, keysNow: set<Key>, wanted: Class, k: Key)
    requires ValidRules(rules) && PlanFits(rules, target, before, managed, plan) && Progress(rules, target, before, plan, kept, now)
    requires |kept| <= |rules| == |plan| && KeysWhileWriting(before, managed, plan, kept, keysNow)
    requires k in OnTarget(before, target, wanted) && k !in managed
    requires forall i :: i in AdoptedOf(rules, plan, managed, wanted) ==> plan[i].value.pk != k
    ensures k in OnTarget(now, target, wanted) && k !in keysNow
  {
    forall i | 0 <= i < |rules| && plan[i].Some? ensures plan[i].value.pk != k {
      AdoptedIfSpare(rules, target, before, managed, plan, wanted, i);
    }
    hide BindingClass, RuleClass, Represents, ValidRule;
    forall i | 0 <= i < |kept| ensures kept[i] != k {
      assert if plan[i].Some? then kept[i] == plan[i].value.pk else kept[i] !in before;
    }
  }

  lemma SpareCount(rules: seq<Rule>, target: Key, before: map<Key, Binding>, managed: set<Key>, plan: seq<Option<Binding>>,
                   kept: seq<Key>, now: map<Key, Binding>, keysNow: set<Key>, wanted: Class)
    requires ValidRules(rules) && PlanFits(rules, target, before, managed, plan) && Progress(rules, target, before, plan, kept, now)
    requires |kept| <= |rules| == |plan| && KeysWhileWriting(before, managed, plan, kept, keysNow)
    ensures |OnTarget(before, target, wanted) - managed| + |LostOf(rules, kept, keysNow, wanted)|
            <= |OnTarget(now, target, wanted) - keysNow| + |AdoptedOf(rules, plan, managed, wanted)|
  {
    hide OnTarget, LostOf, AdoptedOf, PlanFits, Progress, KeysWhileWriting, ValidRules;
    var adopted := AdoptedOf(rules, plan, managed, wanted);
    var spare, left := OnTarget(before, target, wanted) - managed, OnTarget(now, target, wanted) - keysNow;
    var lostKeys := LostKeys(rules, target, before, managed, plan, kept, now, keysNow, wanted);
    AdoptedArePlanned(rules, plan, managed, wanted);
    var image := map i | i in adopted :: plan[i].value.pk;
    forall k | k in spare && k !in left ensures exists i :: i in adopted && image[i] == k {
      if forall i :: i in adopted ==> plan[i].value.pk != k {
        SpareStays(rules, target, before, managed, plan, kept, now, keysNow, wanted, k);
      } else {
        var i :| i in adopted && plan[i].value.pk == k;
        assert image[i] == k;
      }
    }
    TakenBound(spare + lostKeys, left, adopted, image);
    assert |spare + lostKeys| == |spare| + |lostKeys| by {
      OnTargetIsStored(before, target, wanted);
    }
  }

  lemma OnTargetIsStored(bindings: map<Key, Binding>, target: Key, wanted: Class)
    ensures OnTarget(bindings, target, wanted) <= bindings.Keys
  {}

  lemma AdoptedArePlanned(rules: seq<Rule>, plan: seq<Option<Binding>>, managed: set<Key>, wanted: Class)
    requires ValidRules(rules) && |plan| == |rules|
    ensures forall i :: i in AdoptedOf(rules, plan, managed, wanted) ==> i < |plan| && plan[i].Some?
  {}

  /** The Bindings that were created and lost. */
  lemma LostKeys(rules: seq<Rule>, target: Key, before: map<Key, Binding>, managed: set<Key>, plan: seq<Option<Binding>>,
                 kept: seq<Key>, now: map<Key, Binding>, keysNow: set<Key>, wanted: Class)
    returns (keys: set<Key>)
    requires ValidRules(rules) && PlanFits(rules, target, before, managed, plan) && Progress(rules, target, before, plan, kept, now)
    requires |kept| <= |rules| == |plan| && KeysWhileWriting(before, managed, plan, kept, keysNow)
    ensures |keys| == |LostOf(rules, kept, keysNow, wanted)| && keys !! before.Keys
            && keys <= OnTarget(now, target, wanted) - keysNow
  {
    hide PlanFits, Progress, BindingClass, RuleClass, ValidRule;
    LostIsLast(rules, target, before, managed, plan, kept, now, keysNow, wanted);
    keys := {};
    if LostOf(rules, kept, keysNow, wanted) != {} {
      assert |kept| - 1 in LostOf(rules, kept, keysNow, wanted) && |kept| - 1 in CreatedOf(rules, plan, |kept|, wanted);
      NewIsKept(rules, target, before, managed, plan, kept, now, |kept| - 1);
      keys := {kept[|kept| - 1]};
    }
  }

  /** Wherever the write loop stops, the tally of every class changed as in an attempt. */
  lemma AttemptWriting(rules: seq<Rule>, target: Key, before: map<Key, Binding>, managed: set<Key>, plan: seq<Option<Binding>>,
                       kept: seq<Key>, now: map<Key, Binding>, keysNow: set<Key>, wanted: Class)
    requires ValidRules(rules) && PlanFits(rules, target, before, managed, plan) && Progress(rules, target, before, plan, kept, now)
    requires Counts(rules, target, before, managed, plan)
    requires ValidBindingKeys(now) && KeysWhileWriting(before, managed, plan, kept, keysNow)
    ensures Attempt(TallyOf(rules, target, before, managed, wanted), TallyOf(rules, target, now, keysNow, wanted),
                    |NewOf(before, now, target, wanted)|)
  {
    KeptAreNow(rules, target, before, plan, kept, now);
    assert CountsOf(rules, target, before, managed, plan, wanted);
    hide PlanFits, Progress, Counts, KeysWhileWriting, ValidBindingKeys, Holds, OnTarget, RulesOf, Matched, CreatedOf, LostOf,
      AdoptedOf, NewOf, Standing, ValidRules;
    StandingHolds(rules, target, before, managed, plan, kept, now, keysNow);
    CoveredBound(rules, target, now, keysNow, Standing(plan, kept, now, keysNow), wanted);
    StandingCount(rules, target, before, managed, plan, kept, now, keysNow, wanted);
    NewCount(rules, target, before, managed, plan, kept, now, wanted);
    SpareCount(rules, target, before, managed, plan, kept, now, keysNow, wanted);
    LostIsLast(rules, target, before, managed, plan, kept, now, keysNow, wanted);
    SizeUpToOne(LostOf(rules, kept, keysNow, wanted), |kept| - 1);
    SubsetSize(LostOf(rules, kept, keysNow, wanted), CreatedOf(rules, plan, |kept|, wanted));
    StoppedWritingBy(TallyOf(rules, target, before, managed, wanted), TallyOf(rules, target, now, keysNow, wanted),
                     |NewOf(before, now, target, wanted)|, |LostOf(rules, kept, keysNow, wanted)|);
  }

  lemma SizeUpToOne(s: set<nat>, x: int)
    requires s == {} || (x >= 0 && s == {x})
    ensures |s| <= 1
  {}

  lemma StoppedWritingBy(t: Tally, u: Tally, created: nat, lost: nat)
    requires t.Valid() && u.Valid() && u.rules == t.rules && StoppedWriting(t, u, created, lost)
    ensures Attempt(t, u, created)
  {
    assert lost == 0 || lost == 1;
  }

  // ---------- a pass whose writes are all done ----------

  /** Between two moments the tally of a class changed as in one attempt, which created the new Bindings of the class. */
  ghost predicate Attempted(rules: seq<Rule>, target: Key, before: map<Key, Binding>, managed: set<Key>, now: map<Key, Binding>,
                            keysNow: set<Key>, wanted: Class)
    requires ValidRules(rules)
  {
    Attempt(TallyOf(rules, target, before, managed, wanted), TallyOf(rules, target, now, keysNow, wanted),
            |NewOf(before, now, target, wanted)|)
  }

  /** The attempt went all the way for a class: it created what was needed, and every rule is covered. */
  ghost predicate Completed(rules: seq<Rule>, target: Key, before: map<Key, Binding>, managed: set<Key>, now: map<Key, Binding>,
                            keysNow: set<Key>, wanted: Class)
    requires ValidRules(rules)
  {
    && |NewOf(before, now, target, wanted)| == TallyOf(rules, target, before, managed, wanted).Needed()
    && TallyOf(rules, target, now, keysNow, wanted).covered == |RulesOf(rules, wanted)|
  }

  /** After the last write, the kept Bindings are managed, and later deletions spare them. */
  lemma AttemptPassed(rules: seq<Rule>, target: Key, before: map<Key, Binding>, managed: set<Key>, plan: seq<Option<Binding>>,
                      kept: seq<Key>, middle: map<Key, Binding>, dropped: set<Key>, keysNow: set<Key>, wanted: Class)
    requires ValidRules(rules) && PlanFits(rules, target, before, managed, plan)
             && Progress(rules, target, before, plan, kept, middle)
    requires Counts(rules, target, before, managed, plan) && |kept| == |rules|
    requires ValidBindingKeys(middle - dropped) && forall k :: k in kept ==> k !in dropped && k in keysNow
    ensures Attempted(rules, target, before, managed, middle - dropped, keysNow, wanted)
    ensures Completed(rules, target, before, managed, middle - dropped, keysNow, wanted)
  {
    KeptAreNow(rules, target, before, plan, kept, middle);
    assert CountsOf(rules, target, before, managed, plan, wanted);
    hide PlanFits, Progress, Counts, ValidBindingKeys, RulesOf, Matched, CreatedOf, NewOf, ValidRules, TallyOf;
    NewCount(rules, target, before, managed, plan, kept, middle, wanted);
    NewSurvive(rules, target, before, plan, kept, middle, dropped, wanted);
    AllCovered(rules, target, before, plan, kept, middle, dropped, keysNow, wanted);
    AllCreated(rules, plan, wanted);
  }

  lemma AllCovered(rules: seq<Rule>, target: Key, before: map<Key, Binding>, plan: seq<Option<Binding>>, kept: seq<Key>,
                   middle: map<Key, Binding>, dropped: set<Key>, keysNow: set<Key>, wanted: Class)
    requires ValidRules(rules) && Progress(rules, target, before, plan, kept, middle) && |kept| == |rules| == |plan|
    requires ValidBindingKeys(middle - dropped) && forall k :: k in kept ==> k !in dropped && k in keysNow && k in middle
    ensures var u := TallyOf(rules, target, middle - dropped, keysNow, wanted); u.covered == u.rules == |RulesOf(rules, wanted)|
  {
    hide Progress, ValidBindingKeys, Holds, OnTarget, RulesOf, Matched, ValidRules, Standing;
    KeptHold(rules, target, before, plan, kept, middle, dropped, keysNow);
    var matched := Standing(plan, kept, middle, keysNow);
    CoveredBound(rules, target, middle - dropped, keysNow, matched, wanted);
    AllMatched(rules, matched, wanted);
  }

  lemma NewSurvive(rules: seq<Rule>, target: Key, before: map<Key, Binding>, plan: seq<Option<Binding>>, kept: seq<Key>,
                   middle: map<Key, Binding>, dropped: set<Key>, wanted: Class)
    requires ValidRules(rules) && Progress(rules, target, before, plan, kept, middle) && forall k :: k in kept ==> k !in dropped
    ensures NewOf(before, middle - dropped, target, wanted) == NewOf(before, middle, target, wanted)
  {
    hide BindingClass, Represents;
  }

  lemma KeptHold(rules: seq<Rule>, target: Key, before: map<Key, Binding>, plan: seq<Option<Binding>>, kept: seq<Key>,
                 middle: map<Key, Binding>, dropped: set<Key>, keysNow: set<Key>)
    requires ValidRules(rules) && Progress(rules, target, before, plan, kept, middle) && |kept| == |rules| == |plan|
    requires ValidBindingKeys(middle - dropped) && forall k :: k in kept ==> k !in dropped && k in keysNow && k in middle
    ensures Holds(rules, target, middle - dropped, keysNow, Standing(plan, kept, middle, keysNow))
    ensures forall i :: 0 <= i < |rules| ==> Standing(plan, kept, middle, keysNow)[i].Some?
  {
    var now, matched := middle - dropped, Standing(plan, kept, middle, keysNow);
    forall i | 0 <= i < |rules|
      ensures Exact(rules, matched, i) && HeldBy(rules[i], target, now, keysNow, matched[i].value) && matched[i].value.pk == kept[i]
    {
      assert Represents(middle[kept[i]], target, rules[i]) && now[kept[i]] == middle[kept[i]];
    }
    hide HeldBy, Exact, Represents, Standing;
  }

  lemma AllMatched(rules: seq<Rule>, matched: seq<Option<Binding>>, wanted: Class)
    requires ValidRules(rules) && |matched| == |rules| && forall i :: 0 <= i < |rules| ==> matched[i].Some?
    ensures Matched(rules, matched, wanted) == RulesOf(rules, wanted)
  {}

  lemma AllCreated(rules: seq<Rule>, plan: seq<Option<Binding>>, wanted: Class)
    requires ValidRules(rules) && |plan| == |rules|
    ensures |Matched(rules, plan, wanted)| + |CreatedOf(rules, plan, |rules|, wanted)| == |RulesOf(rules, wanted)|
  {
    hide RuleClass;
    assert RulesOf(rules, wanted) == Matched(rules, plan, wanted) + CreatedOf(rules, plan, |rules|, wanted);
  }

  // ---------- all classes ----------

  /** Every class is attempted, and completed once the pass has made its last write. */
  ghost predicate Tallied(rules: seq<Rule>, target: Key, before: map<Key, Binding>, managed: set<Key>, now: map<Key, Binding>,
                          keysNow: set<Key>, finished: bool)
    requires ValidRules(rules)
  {
    && (forall wanted :: Attempted(rules, target, before, managed, now, keysNow, wanted))
    && (finished ==> forall wanted :: Completed(rules, target, before, managed, now, keysNow, wanted))
    && forall k :: k in now && k !in before ==> now[k].target == target
  }

  lemma NothingAdopted(rules: seq<Rule>, target: Key, bindings: map<Key, Binding>, keys: set<Key>)
    requires ValidRules(rules)
    ensures Tallied(rules, target, bindings, keys, bindings, keys, false)
  {
    hide TallyOf, OnTarget;
    forall wanted ensures Attempted(rules, target, bindings, keys, bindings, keys, wanted) {
      assert NewOf(bindings, bindings, target, wanted) == {} by { OnTargetIsStored(bindings, target, wanted); }
    }
  }

  lemma PassWhileAdopting(rules: seq<Rule>, target: Key, bindings: map<Key, Binding>, keys: set<Key>, ours: seq<Binding>,
                          others: seq<Binding>, first: seq<Option<Binding>>, second: seq<Option<Binding>>, keysNow: set<Key>)
    requires ValidRules(rules) && ValidBindingKeys(bindings) && DistinctPks(ours) && DistinctPks(others)
    requires Split(target, bindings, keys, ours, others)
    requires BestAssignment(rules, ours, false, first) && BestAssignment(rules, others, true, second)
    requires |first| == |second| == |rules| && InOrder(rules, first) && InOrder(rules, second)
    requires KeysWhileAdopting(keys, first, second, keysNow)
    ensures Tallied(rules, target, bindings, keys, bindings, keysNow, false)
  {
    hide TallyOf, OnTarget, BestAssignment, Split, InOrder, KeysWhileAdopting, DistinctPks, ValidBindingKeys;
    forall wanted ensures Attempted(rules, target, bindings, keys, bindings, keysNow, wanted) {
      AttemptAdopting(rules, target, bindings, keys, ours, others, first, second, keysNow, wanted);
      assert NewOf(bindings, bindings, target, wanted) == {} by { OnTargetIsStored(bindings, target, wanted); }
    }
  }

  lemma PassWhileWriting(rules: seq<Rule>, target: Key, before: map<Key, Binding>, managed: set<Key>,
                         plan: seq<Option<Binding>>, kept: seq<Key>, now: map<Key, Binding>, keysNow: set<Key>)
    requires ValidRules(rules) && PlanFits(rules, target, before, managed, plan) && Progress(rules, target, before, plan, kept, now)
    requires Counts(rules, target, before, managed, plan) && |kept| <= |rules| == |plan|
    requires ValidBindingKeys(now) && KeysWhileWriting(before, managed, plan, kept, keysNow)
    ensures Tallied(rules, target, before, managed, now, keysNow, false)
    ensures |now.Keys - before.Keys| == |CreatedRules(plan, |kept|)|
  {
    hide PlanFits, Progress, Counts, ValidBindingKeys, KeysWhileWriting, TallyOf, NewOf, CreatedRules;
    AllNewCount(rules, target, before, managed, plan, kept, now);
    forall wanted ensures Attempted(rules, target, before, managed, now, keysNow, wanted) {
      AttemptWriting(rules, target, before, managed, plan, kept, now, keysNow, wanted);
    }
  }

  lemma NewKeysSurvive(before: map<Key, Binding>, middle: map<Key, Binding>, dropped: set<Key>, kept: seq<Key>)
    requires forall k :: k in middle && k !in before ==> k in kept
    requires forall k :: k in kept ==> k !in dropped
    ensures (middle - dropped).Keys - before.Keys == middle.Keys - before.Keys
  {}

  lemma PassWritten(rules: seq<Rule>, target: Key, before: map<Key, Binding>, managed: set<Key>, plan: seq<Option<Binding>>,
                    kept: seq<Key>, middle: map<Key, Binding>, dropped: set<Key>, keysNow: set<Key>)
    requires ValidRules(rules) && PlanFits(rules, target, before, managed, plan)
             && Progress(rules, target, before, plan, kept, middle)
    requires Counts(rules, target, before, managed, plan) && |kept| == |rules| == |plan|
    requires ValidBindingKeys(middle - dropped) && forall k :: k in kept ==> k !in dropped && k in keysNow
    ensures Tallied(rules, target, before, managed, middle - dropped, keysNow, true)
    ensures |(middle - dropped).Keys - before.Keys| == |CreatedRules(plan, |kept|)|
  {
    hide PlanFits, Progress, Counts, ValidBindingKeys, TallyOf, NewOf, CreatedRules, Attempted, Completed;
    AllNewCount(rules, target, before, managed, plan, kept, middle);
    NewKeysSurvive(before, middle, dropped, kept);
    forall wanted
      ensures Attempted(rules, target, before, managed, middle - dropped, keysNow, wanted)
      ensures Completed(rules, target, before, managed, middle - dropped, keysNow, wanted)
    {
      AttemptPassed(rules, target, before, managed, plan, kept, middle, dropped, keysNow, wanted);
    }
  }

  ghost predicate AllRecoverable(rules: seq<Rule>, target: Key, bindings: map<Key, Binding>, managed: set<Key>)
    requires ValidRules(rules)
  {
    forall wanted :: TallyOf(rules, target, bindings, managed, wanted).Recoverable()
  }

  /** The classes of the rules that need a new Binding. */
  ghost function Open(rules: seq<Rule>, target: Key, bindings: map<Key, Binding>, managed: set<Key>): set<Class>
    requires ValidRules(rules)
  {
    set i | 0 <= i < |rules| && TallyOf(rules, target, bindings, managed, RuleClass(rules[i])).Needed() > 0 :: RuleClass(rules[i])
  }

  lemma OpenClass(rules: seq<Rule>, target: Key, bindings: map<Key, Binding>, managed: set<Key>, wanted: Class)
    requires ValidRules(rules)
    ensures wanted in Open(rules, target, bindings, managed) <==> TallyOf(rules, target, bindings, managed, wanted).Needed() > 0
  {
    var needed := TallyOf(rules, target, bindings, managed, wanted).Needed();
    if needed > 0 {
      assert RulesOf(rules, wanted) != {};
      var i :| i in RulesOf(rules, wanted);
      hide TallyOf;
      assert RuleClass(rules[i]) == wanted;
    }
  }

  lemma OneRulePerClass(rules: seq<Rule>, wanted: Class)
    requires ValidRules(rules) && DistinctRules(rules)
    ensures |RulesOf(rules, wanted)| <= 1
  {
    if i :| i in RulesOf(rules, wanted) {
      hide RuleClass;
      forall j | j in RulesOf(rules, wanted) ensures j == i {
        assert j < i || i < j || i == j;
      }
      assert RulesOf(rules, wanted) == {i};
    }
  }

  /** Pairwise distinct rules are recoverable from every state. */
  lemma DistinctRulesRecover(rules: seq<Rule>, target: Key, bindings: map<Key, Binding>, managed: set<Key>)
    requires ValidRules(rules) && DistinctRules(rules)
    ensures AllRecoverable(rules, target, bindings, managed)
  {
    hide DistinctRules, RulesOf, OnTarget;
    forall wanted ensures TallyOf(rules, target, bindings, managed, wanted).Recoverable() {
      OneRulePerClass(rules, wanted);
    }
  }

  /** While every class is recoverable, each new Binding closes one open class for good. */
  lemma OpenShrinks(rules: seq<Rule>, target: Key, before: map<Key, Binding>, managed: set<Key>, now: map<Key, Binding>,
                    keysNow: set<Key>, finished: bool)
    requires ValidRules(rules) && AllRecoverable(rules, target, before, managed)
    requires Tallied(rules, target, before, managed, now, keysNow, finished)
    ensures AllRecoverable(rules, target, now, keysNow)
    ensures |now.Keys - before.Keys| + |Open(rules, target, now, keysNow)| <= |Open(rules, target, before, managed)|
    ensures finished ==>
              && Open(rules, target, now, keysNow) == {}
              && |now.Keys - before.Keys| == |Open(rules, target, before, managed)|
  {
    hide ValidRules, RuleClass, BindingClass, TallyOf, Attempt, Tally.Recoverable, Tally.Needed;
    var open, still := Open(rules, target, before, managed), Open(rules, target, now, keysNow);
    forall wanted
      ensures TallyOf(rules, target, now, keysNow, wanted).Recoverable()
      ensures |NewOf(before, now, target, wanted)| <= 1
      ensures wanted in still ==> wanted in open && NewOf(before, now, target, wanted) == {}
      ensures NewOf(before, now, target, wanted) != {} ==> wanted in open
      ensures finished ==> wanted !in still && (wanted in open ==> NewOf(before, now, target, wanted) != {})
    {
      ClassStep(rules, target, before, managed, now, keysNow, finished, wanted);
    }
    NewPerClass(before, now, target, open - still);
    assert |open - still| == |open| - |still|;
    if finished {
      assert still == {};
      ClassesCovered(before, now, target, open);
    }
  }

  lemma ClassStep(rules: seq<Rule>, target: Key, before: map<Key, Binding>, managed: set<Key>, now: map<Key, Binding>,
                  keysNow: set<Key>, finished: bool, wanted: Class)
    requires ValidRules(rules) && TallyOf(rules, target, before, managed, wanted).Recoverable()
    requires Tallied(rules, target, before, managed, now, keysNow, finished)
    ensures TallyOf(rules, target, now, keysNow, wanted).Recoverable()
    ensures |NewOf(before, now, target, wanted)| <= 1
    ensures var open, still := Open(rules, target, before, managed), Open(rules, target, now, keysNow);
            && (wanted in still ==> wanted in open && NewOf(before, now, target, wanted) == {})
            && (NewOf(before, now, target, wanted) != {} ==> wanted in open)
            && (finished ==> wanted !in still && (wanted in open ==> NewOf(before, now, target, wanted) != {}))
  {
    hide Open, NewOf, RuleClass, ValidRules;
    assert Attempted(rules, target, before, managed, now, keysNow, wanted);
    assert finished ==> Completed(rules, target, before, managed, now, keysNow, wanted);
    OpenClass(rules, target, before, managed, wanted);
    OpenClass(rules, target, now, keysNow, wanted);
    hide RulesOf, OnTarget;
    RecoverableStep(TallyOf(rules, target, before, managed, wanted), TallyOf(rules, target, now, keysNow, wanted),
                    |NewOf(before, now, target, wanted)|);
  }

  function NewClasses(before: map<Key, Binding>, now: map<Key, Binding>): (image: map<nat, Class>)
    ensures image.Keys == now.Keys - before.Keys
  {
    map k: nat | k in now.Keys - before.Keys :: BindingClass(now[k])
  }

  lemma NewOfClass(before: map<Key, Binding>, now: map<Key, Binding>, target: Key, wanted: Class, k: Key)
    ensures k in NewOf(before, now, target, wanted) <==>
              k in NewClasses(before, now) && now[k].target == target && NewClasses(before, now)[k] == wanted
  {}

  /** With at most one new Binding per class, there are no more of them than classes that got one. */
  lemma NewPerClass(before: map<Key, Binding>, now: map<Key, Binding>, target: Key, classes: set<Class>)
    requires forall k :: k in now && k !in before ==> now[k].target == target
    requires forall wanted :: |NewOf(before, now, target, wanted)| <= 1
    requires forall wanted :: NewOf(before, now, target, wanted) != {} ==> wanted in classes
    ensures |now.Keys - before.Keys| <= |classes|
  {
    hide NewOf, NewClasses;
    var image := NewClasses(before, now);
    forall k | k in image ensures image[k] in classes {
      NewOfClass(before, now, target, image[k], k);
    }
    forall k, k' | k in image && k' in image && k != k' ensures image[k] != image[k'] {
      DifferentClasses(before, now, target, k, k');
    }
    InjectionSize(image.Keys, image, classes);
  }

  lemma DifferentClasses(before: map<Key, Binding>, now: map<Key, Binding>, target: Key, k: Key, k': Key)
    requires k in NewClasses(before, now) && k' in NewClasses(before, now) && k != k'
    requires now[k].target == target == now[k'].target
    requires |NewOf(before, now, target, NewClasses(before, now)[k])| <= 1
    ensures NewClasses(before, now)[k] != NewClasses(before, now)[k']
  {
    hide NewOf, NewClasses;
    var wanted := NewClasses(before, now)[k];
    NewOfClass(before, now, target, wanted, k);
    NewOfClass(before, now, target, wanted, k');
    if k' in NewOf(before, now, target, wanted) {
      DisjointPartsSize({k}, {k'}, NewOf(before, now, target, wanted));
    }
  }

  lemma ClassesCovered(before: map<Key, Binding>, now: map<Key, Binding>, target: Key, classes: set<Class>)
    requires forall wanted :: wanted in classes ==> NewOf(before, now, target, wanted) != {}
    ensures |classes| <= |now.Keys - before.Keys|
  {
    hide NewOf, NewClasses;
    var image := NewClasses(before, now);
    forall wanted | wanted in classes ensures exists k :: k in image && image[k] == wanted {
      var k :| k in NewOf(before, now, target, wanted);
      NewOfClass(before, now, target, wanted, k);
    }
    SurjectionSize(image.Keys, image, classes);
  }

  // ---------- many passes ----------

  /** The Bindings, and what is managed, between two passes. */
  datatype Moment = Moment(bindings: map<Key, Binding>, managed: set<Key>)

  ghost function Tallies(rules: seq<Rule>, target: Key, moments: seq<Moment>, wanted: Class): (r: seq<Tally>)
    requires ValidRules(rules)
    ensures |r| == |moments|
  {
    seq(|moments|, i requires 0 <= i < |moments| => TallyOf(rules, target, moments[i].bindings, moments[i].managed, wanted))
  }

  /** How many Bindings of a class each pass created. */
  ghost function CreatedPerPass(target: Key, moments: seq<Moment>, wanted: Class): (r: seq<nat>)
    requires moments != []
    ensures |r| == |moments| - 1
  {
    seq(|moments| - 1, i requires 0 <= i < |moments| - 1 => |NewOf(moments[i].bindings, moments[i + 1].bindings, target, wanted)|)
  }

  ghost predicate Passes(rules: seq<Rule>, target: Key, moments: seq<Moment>)
    requires ValidRules(rules)
  {
    && moments != []
    && forall i :: 0 <= i < |moments| - 1 ==>
         Tallied(rules, target, moments[i].bindings, moments[i].managed, moments[i + 1].bindings, moments[i + 1].managed, false)
  }

  /** Seen from any class, passes are a run; in a recoverable class they create no more than what is needed. */
  lemma PassesAreRuns(rules: seq<Rule>, target: Key, moments: seq<Moment>, wanted: Class)
    requires ValidRules(rules) && Passes(rules, target, moments)
    ensures var tallies, created := Tallies(rules, target, moments, wanted), CreatedPerPass(target, moments, wanted);
            && Run(tallies, created)
            && (tallies[0].Recoverable() ==> Sum(created) + tallies[|created|].Needed() <= tallies[0].Needed())
  {
    hide TallyOf, NewOf;
    var tallies, created := Tallies(rules, target, moments, wanted), CreatedPerPass(target, moments, wanted);
    forall i | 0 <= i < |created| ensures Attempt(tallies[i], tallies[i + 1], created[i]) {
      assert Attempted(rules, target, moments[i].bindings, moments[i].managed, moments[i + 1].bindings, moments[i + 1].managed,
                       wanted);
    }
    if tallies[0].Recoverable() {
      RecoverableRun(tallies, created);
    }
  }

  lemma PassesAppend(rules: seq<Rule>, target: Key, moments: seq<Moment>, next: Moment, finished: bool)
    requires ValidRules(rules) && Passes(rules, target, moments)
    requires var last := moments[|moments| - 1]; Tallied(rules, target, last.bindings, last.managed, next.bindings, next.managed,
                                                         finished)
    ensures Passes(rules, target, moments + [next])
  {
    hide Attempted;
    var more := moments + [next];
    assert forall i :: 0 <= i < |moments| ==> more[i] == moments[i];
  }
}
