/**
 What reconcileBindings plans and keeps, as facts about maps of Bindings: which rules are represented, which Binding
 each rule gets, and how far the writes have come.
 */
module BindingPlan {
  import opened Base
  import opened Api
  import opened Patch
  import opened Matching
  import opened Desired

  // ---------- representation ----------

  predicate Represents(binding: Binding, target: Key, rule: Rule)
    requires ValidRule(rule)
  {
    binding.target == target && BindingClass(binding) == RuleClass(rule)
  }

  ghost predicate Represented(bindings: map<Key, Binding>, target: Key, rule: Rule)
    requires ValidRule(rule)
  {
    exists k :: k in bindings && Represents(bindings[k], target, rule)
  }

  ghost predicate AllRepresented(bindings: map<Key, Binding>, target: Key, rules: seq<Rule>)
    requires ValidRules(rules)
  {
    forall i :: 0 <= i < |rules| ==> Represented(bindings, target, rules[i])
  }

  /** No access right of a rule is lost. */
  ghost predicate KeepsRules(before: map<Key, Binding>, after: map<Key, Binding>, target: Key, rules: seq<Rule>)
    requires ValidRules(rules)
  {
    forall i :: 0 <= i < |rules| && Represented(before, target, rules[i]) ==> Represented(after, target, rules[i])
  }

  ghost predicate SingleSubjects(bindings: map<Key, Binding>, target: Key) {
    forall k :: k in bindings && bindings[k].target == target ==> SingleSubject(bindings[k])
  }

  /** No Binding leaves the target. */
  ghost predicate Grows(before: map<Key, Binding>, after: map<Key, Binding>, target: Key) {
    forall k :: k in before && before[k].target == target ==> k in after && after[k].target == target
  }

  ghost predicate HasBindings(bindings: map<Key, Binding>, target: Key) {
    exists k :: k in bindings && bindings[k].target == target
  }

  predicate DistinctRules(rules: seq<Rule>)
    requires ValidRules(rules)
  {
    forall i, j :: 0 <= i < j < |rules| ==> RuleClass(rules[i]) != RuleClass(rules[j])
  }

  // ---------- the plan ----------

  /**
   Every rule may get one Binding of its subject on the target. A Binding of another negate is managed, and
   every rule of its own class gets an exact managed one.
   */
  ghost predicate PlanFits(rules: seq<Rule>, target: Key, bindings: map<Key, Binding>, managed: set<Key>,
                           plan: seq<Option<Binding>>)
    requires ValidRules(rules)
  {
    && |plan| == |rules|
    && (forall i :: 0 <= i < |rules| && plan[i].Some? ==>
          && plan[i].value.pk in bindings && bindings[plan[i].value.pk] == plan[i].value && plan[i].value.target == target
          && ObservedSubject(plan[i].value) == RuleSubject(rules[i]))
    && (forall i, j :: 0 <= i < j < |rules| && plan[i].Some? && plan[j].Some? ==> plan[i].value.pk != plan[j].value.pk)
    && (forall i :: 0 <= i < |rules| && plan[i].Some? && !Exact(rules, plan, i) ==> plan[i].value.pk in managed)
    && (forall i, j ::
          (&& 0 <= i < |rules| && 0 <= j < |rules| && plan[i].Some? && !Exact(rules, plan, i)
           && RuleClass(rules[j]) == BindingClass(plan[i].value))
          ==> Exact(rules, plan, j) && plan[j].value.pk in managed)
  }

  /** The Bindings of the target, split by whether the operator manages them. */
  ghost predicate Split(target: Key, bindings: map<Key, Binding>, managed: set<Key>, ours: seq<Binding>, others: seq<Binding>) {
    && (forall b :: b in ours <==> b.pk in bindings && bindings[b.pk] == b && b.target == target && b.pk in managed)
    && (forall b :: b in others <==> b.pk in bindings && bindings[b.pk] == b && b.target == target && b.pk !in managed)
  }

  /** The matches of the managed Bindings, completed with exact matches of the others. */
  ghost predicate Combined(first: seq<Option<Binding>>, second: seq<Option<Binding>>, plan: seq<Option<Binding>>) {
    && |plan| == |first| == |second|
    && forall i :: 0 <= i < |plan| ==> plan[i] == if first[i].Some? then first[i] else second[i]
  }

  function PlannedKeys(plan: seq<Option<Binding>>): set<Key> {
    set i | 0 <= i < |plan| && plan[i].Some? :: plan[i].value.pk
  }

  lemma CombinedFits(rules: seq<Rule>, target: Key, bindings: map<Key, Binding>, managed: set<Key>, ours: seq<Binding>,
                     others: seq<Binding>, first: seq<Option<Binding>>, second: seq<Option<Binding>>,
                     plan: seq<Option<Binding>>)
    requires ValidRules(rules) && Split(target, bindings, managed, ours, others)
    requires BestAssignment(rules, ours, false, first) && BestAssignment(rules, others, true, second)
    requires Combined(first, second, plan)
    ensures PlanFits(rules, target, bindings, managed, plan)
  {
    forall i | 0 <= i < |rules| && plan[i].Some?
      ensures first[i].Some? ==> plan[i].value.pk in managed && (Exact(rules, plan, i) <==> Exact(rules, first, i))
      ensures first[i].None? ==> plan[i].value.pk !in managed && Exact(rules, plan, i)
    {}
    forall i, j | && 0 <= i < |rules| && 0 <= j < |rules| && plan[i].Some? && !Exact(rules, plan, i)
                  && RuleClass(rules[j]) == BindingClass(plan[i].value)
      ensures Exact(rules, plan, j) && plan[j].value.pk in managed
    {
      InexactMatchIsSpare(rules, ours, first, i, j);
    }
  }

  // ---------- adoption of several Bindings of one class ----------

  function Matched(rules: seq<Rule>, matched: seq<Option<Binding>>, wanted: Class): set<nat>
    requires ValidRules(rules) && |matched| == |rules|
  {
    set i | 0 <= i < |rules| && RuleClass(rules[i]) == wanted && matched[i].Some?
  }

  /** Rules of a class are served in their order, so of two assignments one serves all that the other does. */
  lemma MatchedNested(rules: seq<Rule>, first: seq<Option<Binding>>, second: seq<Option<Binding>>, wanted: Class)
    requires ValidRules(rules) && |first| == |second| == |rules| && InOrder(rules, first) && InOrder(rules, second)
    ensures Matched(rules, first, wanted) <= Matched(rules, second, wanted)
            || Matched(rules, second, wanted) <= Matched(rules, first, wanted)
  {
    var f, s := Matched(rules, first, wanted), Matched(rules, second, wanted);
    forall i, j | i in f && i !in s && j in s ensures j in f {
      assert i < j || j < i;
    }
  }

  /**
   How many rules of a class the unmanaged Bindings of that class leave for creation, and when that is as few as
   possible: not when managed and unmanaged Bindings both cover some but neither covers all of several equal rules,
   because the unmanaged Bindings are offered to the rules that have a managed one.
   */
  lemma AdoptionLeaves(rules: seq<Rule>, ours: seq<Binding>, others: seq<Binding>, first: seq<Option<Binding>>,
                       second: seq<Option<Binding>>, plan: seq<Option<Binding>>, wanted: Class)
    requires ValidRules(rules) && DistinctPks(others) && |first| == |second| == |rules| && Combined(first, second, plan)
    requires InOrder(rules, first) && InOrder(rules, second) && BestAssignment(rules, others, true, second)
    ensures var all, covered, spare := |RulesOf(rules, wanted)|, |Matched(rules, first, wanted)|, |BindingsOf(others, wanted)|;
            var left := |RulesOf(rules, wanted)| - |Matched(rules, plan, wanted)|;
            && left == all - (if covered <= Min(all, spare) then Min(all, spare) else covered)
            && (left == all - Min(all, covered + spare) <==> covered == 0 || spare == 0 || all <= covered || all <= spare)
  {
    var all, f, s := RulesOf(rules, wanted), Matched(rules, first, wanted), Matched(rules, second, wanted);
    ExactMatchesOptimal(rules, others, true, second, wanted);
    assert s == ExactOf(rules, second, wanted);
    assert Matched(rules, plan, wanted) == f + s;
    MatchedNested(rules, first, second, wanted);
    SubsetSize(f, all);
    assert f <= s ==> f + s == s;
    assert s <= f ==> f + s == f;
    if f <= s {
      SubsetSize(f, s);
    } else {
      SubsetSize(s, f);
    }
  }

  ghost predicate ValidBindingKeys(bindings: map<Key, Binding>) {
    forall k :: k in bindings ==> bindings[k].pk == k
  }

  // ---------- the writes ----------

  /**
   The state after the first rules have been written: rule i is represented by kept[i], which is the planned
   Binding or a new one; Bindings that are not kept are as before; kept ones changed at most their negate.
   */
  ghost predicate Progress(rules: seq<Rule>, target: Key, before: map<Key, Binding>, plan: seq<Option<Binding>>, kept: seq<Key>,
                           now: map<Key, Binding>)
    requires ValidRules(rules)
  {
    && |plan| == |rules| && |kept| <= |rules|
    && (forall i :: 0 <= i < |kept| ==> kept[i] in now && Represents(now[kept[i]], target, rules[i]))
    && (forall i :: 0 <= i < |kept| ==> if plan[i].Some? then kept[i] == plan[i].value.pk else kept[i] !in before)
    && (forall i, j :: 0 <= i < j < |kept| ==> kept[i] != kept[j])
    && (forall k :: k in before ==>
          && k in now && now[k].target == before[k].target && ObservedSubject(now[k]) == ObservedSubject(before[k])
          && (k !in kept ==> now[k] == before[k]))
    && (forall k :: k in now && k !in before ==> k in kept)
  }

  /** The planned Binding of the next rule is still as it was. */
  lemma NextPlanned(rules: seq<Rule>, target: Key, before: map<Key, Binding>, managed: set<Key>, plan: seq<Option<Binding>>,
                    kept: seq<Key>, now: map<Key, Binding>)
    requires ValidRules(rules) && PlanFits(rules, target, before, managed, plan)
    requires Progress(rules, target, before, plan, kept, now)
    requires |kept| < |rules| && plan[|kept|].Some?
    ensures var b := plan[|kept|].value;
            && b.pk in before && b.pk in now && now[b.pk] == b && b.target == target && b.pk !in kept
            && ObservedSubject(b) == RuleSubject(rules[|kept|])
  {
    hide ObservedSubject, RuleSubject, BindingClass, RuleClass, Represents, ValidRule;
    var b := plan[|kept|].value;
    forall j | 0 <= j < |kept| ensures kept[j] != b.pk {
      assert if plan[j].Some? then kept[j] == plan[j].value.pk else kept[j] !in before;
    }
  }

  /** The next rule's planned Binding has been repaired. */
  lemma ProgressSync(rules: seq<Rule>, target: Key, before: map<Key, Binding>, managed: set<Key>, plan: seq<Option<Binding>>,
                     kept: seq<Key>, now: map<Key, Binding>, after: Binding)
    requires ValidRules(rules) && PlanFits(rules, target, before, managed, plan)
    requires Progress(rules, target, before, plan, kept, now)
    requires |kept| < |rules| && plan[|kept|].Some?
    requires Represents(after, target, rules[|kept|]) && ObservedSubject(after) == RuleSubject(rules[|kept|])
    ensures Progress(rules, target, before, plan, kept + [plan[|kept|].value.pk], now[plan[|kept|].value.pk := after])
  {
    NextPlanned(rules, target, before, managed, plan, kept, now);
    assert after.target == target;
    hide ObservedSubject, RuleSubject, BindingClass, RuleClass, Represents, ValidRule, PlanFits;
    var pk := plan[|kept|].value.pk;
    var next, more := now[pk := after], kept + [pk];
    forall i | 0 <= i < |more|
      ensures more[i] in next && Represents(next[more[i]], target, rules[i])
      ensures if plan[i].Some? then more[i] == plan[i].value.pk else more[i] !in before
    {
      assert i < |kept| ==> more[i] == kept[i] && kept[i] != pk;
    }
    assert forall k :: k in more <==> k in kept || k == pk;
  }

  /** The next rule has got a new Binding. */
  lemma ProgressCreate(rules: seq<Rule>, target: Key, before: map<Key, Binding>, plan: seq<Option<Binding>>, kept: seq<Key>,
                       now: map<Key, Binding>, b: Binding)
    requires ValidRules(rules) && Progress(rules, target, before, plan, kept, now)
    requires |kept| < |rules| && plan[|kept|].None?
    requires b.pk !in now && Represents(b, target, rules[|kept|])
    ensures Progress(rules, target, before, plan, kept + [b.pk], now[b.pk := b])
  {
    hide ObservedSubject, RuleSubject, BindingClass, RuleClass, Represents, ValidRule;
    var next, more := now[b.pk := b], kept + [b.pk];
    forall i | 0 <= i < |more|
      ensures more[i] in next && Represents(next[more[i]], target, rules[i])
      ensures if plan[i].Some? then more[i] == plan[i].value.pk else more[i] !in before
    {
      assert i < |kept| ==> more[i] == kept[i] && kept[i] != b.pk;
    }
    assert forall k :: k in more <==> k in kept || k == b.pk;
  }

  /** The Binding planned for a later rule has not been touched. */
  lemma NotYetWritten(rules: seq<Rule>, target: Key, before: map<Key, Binding>, managed: set<Key>, plan: seq<Option<Binding>>,
                      kept: seq<Key>, now: map<Key, Binding>, i: nat)
    requires ValidRules(rules) && PlanFits(rules, target, before, managed, plan)
    requires Progress(rules, target, before, plan, kept, now)
    requires |kept| <= i < |rules| && plan[i].Some?
    ensures var b := plan[i].value; b.pk in before && b.pk !in kept && b.pk in now && now[b.pk] == b == before[b.pk]
  {
    hide ObservedSubject, RuleSubject, BindingClass, RuleClass, Represents, ValidRule;
    var b := plan[i].value;
    forall j | 0 <= j < |kept| ensures kept[j] != b.pk {
      assert if plan[j].Some? then kept[j] == plan[j].value.pk else kept[j] !in before;
    }
  }

  /** While the writes go on, no rule that was represented is left without a Binding. */
  lemma ProgressKeepsRules(rules: seq<Rule>, target: Key, before: map<Key, Binding>, managed: set<Key>,
                           plan: seq<Option<Binding>>, kept: seq<Key>, now: map<Key, Binding>)
    requires ValidRules(rules) && PlanFits(rules, target, before, managed, plan)
    requires Progress(rules, target, before, plan, kept, now)
    ensures KeepsRules(before, now, target, rules)
    ensures Grows(before, now, target)
    ensures |kept| == |rules| ==> AllRepresented(now, target, rules)
  {
    forall i | 0 <= i < |rules| && Represented(before, target, rules[i])
      ensures Represented(now, target, rules[i])
    {
      var k :| k in before && Represents(before[k], target, rules[i]);
      if k !in kept {
        assert now[k] == before[k];
      } else {
        var j :| 0 <= j < |kept| && kept[j] == k;
        assert plan[j].Some? && plan[j].value == before[k];
        if Exact(rules, plan, j) {
          assert Represents(now[kept[j]], target, rules[i]);
        } else if i < |kept| {
          assert Represents(now[kept[i]], target, rules[i]);
        } else {
          assert Exact(rules, plan, i);
          var k' := plan[i].value.pk;
          NotYetWritten(rules, target, before, managed, plan, kept, now, i);
          assert now[k'] == before[k'];
        }
      }
    }
  }

  /** Rules that got a new Binding so far. */
  function CreatedRules(plan: seq<Option<Binding>>, done: nat): (created: set<nat>)
    requires done <= |plan|
  {
    set i | 0 <= i < done && plan[i].None?
  }

  lemma CreatedStep(plan: seq<Option<Binding>>, done: nat)
    requires done < |plan|
    ensures |CreatedRules(plan, done + 1)| == |CreatedRules(plan, done)| + if plan[done].None? then 1 else 0
  {
    assert CreatedRules(plan, done + 1) == CreatedRules(plan, done) + if plan[done].None? then {done} else {};
  }

  /** Storing a Binding of the target removes none from it. */
  lemma StoreGrows(now: map<Key, Binding>, target: Key, pk: Key, after: Binding)
    requires SingleSubjects(now, target) && after.target == target && SingleSubject(after)
    ensures SingleSubjects(now[pk := after], target) && Grows(now, now[pk := after], target)
  {}

  // ---------- the settled state ----------

  function BindingObject(pk: Key): Object {
    Object(BindingModel, pk)
  }

  /** What a successful pass leaves: one recorded, marked, and conforming Binding per rule, and no other managed one. */
  ghost predicate Settled(rules: seq<Rule>, target: Key, prune: bool, bindings: map<Key, Binding>, recorded: seq<Key>,
                          marked: set<Object>)
    requires ValidRules(rules)
  {
    && |recorded| == |rules|
    && (forall i :: 0 <= i < |rules| ==>
          && recorded[i] in bindings && SingleSubject(bindings[recorded[i]])
          && DiffBinding(DesiredBinding(target, rules[i]), bindings[recorded[i]]).None?
          && BindingObject(recorded[i]) in marked)
    && (forall i, j :: 0 <= i < j < |rules| ==> recorded[i] != recorded[j])
    && (forall k :: k in bindings && bindings[k].target == target && (prune || BindingObject(k) in marked) ==> k in recorded)
  }

  function RuleClasses(rules: seq<Rule>): seq<Class>
    requires ValidRules(rules)
  {
    seq(|rules|, i requires 0 <= i < |rules| => RuleClass(rules[i]))
  }

  function BindingClasses(bindings: map<Key, Binding>, keys: seq<Key>): seq<Class>
    requires forall k :: k in keys ==> k in bindings
  {
    seq(|keys|, i requires 0 <= i < |keys| => BindingClass(bindings[keys[i]]))
  }

  /** The recorded Bindings carry exactly the rules' subjects and negates, with multiplicity. */
  lemma {:induction false} SettledClasses(rules: seq<Rule>, target: Key, bindings: map<Key, Binding>, recorded: seq<Key>)
    requires ValidRules(rules) && |recorded| == |rules|
    requires forall i :: 0 <= i < |rules| ==>
               recorded[i] in bindings && SingleSubject(bindings[recorded[i]])
               && DiffBinding(DesiredBinding(target, rules[i]), bindings[recorded[i]]).None?
    ensures multiset(RuleClasses(rules)) == multiset(BindingClasses(bindings, recorded))
  {
    forall i | 0 <= i < |rules|
      ensures BindingClass(bindings[recorded[i]]) == RuleClass(rules[i])
    {
      SettledBinding(target, rules[i], bindings[recorded[i]]);
    }
    assert RuleClasses(rules) == BindingClasses(bindings, recorded);
  }

  /** Rules with the same class are the same rule. */
  lemma ClassDetermines(a: Rule, b: Rule)
    requires ValidRule(a) && ValidRule(b) && RuleClass(a) == RuleClass(b)
    ensures a == b
  {}

  /** In a settled state every rule has an exact match that needs no patch, whatever order the Bindings are listed in. */
  lemma SettledPlan(rules: seq<Rule>, target: Key, prune: bool, bindings: map<Key, Binding>, recorded: seq<Key>,
                    marked: set<Object>, ours: seq<Binding>, matched: seq<Option<Binding>>)
    requires ValidRules(rules) && ValidBindingKeys(bindings) && SingleSubjects(bindings, target)
    requires Settled(rules, target, prune, bindings, recorded, marked)
    requires DistinctPks(ours) && BestAssignment(rules, ours, false, matched)
    requires forall b :: b in ours <==> b.pk in bindings && bindings[b.pk] == b && b.target == target && b.pk in recorded
    ensures forall i :: 0 <= i < |rules| ==>
              matched[i].Some? && DiffBinding(DesiredBinding(target, rules[i]), matched[i].value).None?
    ensures forall b :: b in ours ==> Some(b) in matched
  {
    forall i | 0 <= i < |rules|
      ensures BindingClass(bindings[recorded[i]]) == RuleClass(rules[i]) && bindings[recorded[i]] in ours
    {
      SettledBinding(target, rules[i], bindings[recorded[i]]);
    }
    forall i | 0 <= i < |rules|
      ensures Exact(rules, matched, i) && DiffBinding(DesiredBinding(target, rules[i]), matched[i].value).None?
    {
      EveryRuleExact(rules, bindings, recorded, ours, matched, i);
      var k :| 0 <= k < |rules| && recorded[k] == matched[i].value.pk;
      ClassDetermines(rules[i], rules[k]);
    }
    forall b | b in ours ensures exists k :: 0 <= k < |rules| && bindings[recorded[k]] == b {
      var k :| 0 <= k < |rules| && recorded[k] == b.pk;
    }
    EveryBindingUsed(rules, bindings, recorded, ours, matched);
  }

  lemma EveryRuleExact(rules: seq<Rule>, bindings: map<Key, Binding>, recorded: seq<Key>, ours: seq<Binding>,
                       matched: seq<Option<Binding>>, i: nat)
    requires ValidRules(rules) && DistinctPks(ours) && BestAssignment(rules, ours, false, matched) && i < |rules|
    requires |recorded| == |rules| && (forall k, j :: 0 <= k < j < |rules| ==> recorded[k] != recorded[j])
    requires forall k :: 0 <= k < |rules| ==>
               recorded[k] in bindings && bindings[recorded[k]].pk == recorded[k] && bindings[recorded[k]] in ours
               && BindingClass(bindings[recorded[k]]) == RuleClass(rules[k])
    ensures Exact(rules, matched, i)
  {
    var wanted := RuleClass(rules[i]);
    var all, exact := RulesOf(rules, wanted), ExactOf(rules, matched, wanted);
    var image := map k | k in all :: bindings[recorded[k]];
    InjectiveImageSize(all, image);
    var held := set k | k in all :: image[k];
    SubsetSize(held, BindingsOf(ours, wanted));
    ExactMatchesOptimal(rules, ours, false, matched, wanted);
    SubsetOfEqualSize(exact, all);
    assert i in all;
  }

  /** As many recorded Bindings as rules, and a Binding for every rule: no Binding is left over. */
  lemma EveryBindingUsed(rules: seq<Rule>, bindings: map<Key, Binding>, recorded: seq<Key>, ours: seq<Binding>,
                         matched: seq<Option<Binding>>)
    requires ValidRules(rules) && DistinctPks(ours) && Assignment(rules, ours, matched)
    requires forall i :: 0 <= i < |rules| ==> matched[i].Some?
    requires |recorded| == |rules| && forall k :: 0 <= k < |rules| ==> recorded[k] in bindings
    requires forall b :: b in ours ==> exists k :: 0 <= k < |rules| && bindings[recorded[k]] == b
    ensures forall b :: b in ours ==> Some(b) in matched
  {
    var all := set i | 0 <= i < |rules| && matched[i].Some?;
    var held := set i | i in all :: matched[i].value;
    HeldBindings(rules, ours, matched, all);
    var image := map k | k in all :: bindings[recorded[k]];
    var taken := set k | k in all :: image[k];
    ImageSize(all, image);
    forall b | b in Elements(ours) ensures b in taken {
      var k :| 0 <= k < |rules| && bindings[recorded[k]] == b;
      assert k in all && image[k] == b;
    }
    SubsetSize(Elements(ours), taken);
    SubsetSize(held, Elements(ours));
    SubsetOfEqualSize(held, Elements(ours));
    forall b | b in ours ensures Some(b) in matched {
      assert b in Elements(ours) && b in held;
      var i :| i in all && matched[i].value == b;
      assert matched[i] == Some(b);
    }
  }
}
