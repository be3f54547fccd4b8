/** Assigns existing Bindings to access rules (internal/controller/bindings.go) and shows that it does so optimally. */
module Matching {
  import opened Base
  import opened Api

  /** The subject of a Binding or a rule; unused fields are zero. */
  datatype Subject = Subject(group: Key, user: int, policy: Key)

  /** What a rule grants or denies, and to whom. */
  datatype Class = Class(subject: Subject, negate: bool)

  /** A resolved rule has exactly one subject, which is the identifier of an existing object. */
  predicate ValidRule(rule: Rule) {
    && (rule.group.Some? ==> rule.group.value != EMPTY && rule.user.None? && rule.policy.None?)
    && (rule.user.Some? ==> rule.policy.None?)
    && (rule.policy.Some? ==> rule.policy.value != EMPTY)
    && (rule.group.Some? || rule.user.Some? || rule.policy.Some?)
  }

  function RuleSubject(rule: Rule): Subject
    requires ValidRule(rule)
  {
    if rule.group.Some? then Subject(rule.group.value, 0, EMPTY)
    else if rule.user.Some? then Subject(EMPTY, rule.user.value, EMPTY)
    else Subject(EMPTY, 0, rule.policy.value)
  }

  function ObservedSubject(binding: Binding): Subject {
    if binding.group.Value? && binding.group.value != EMPTY then Subject(binding.group.value, 0, EMPTY)
    else if binding.user.Value? then Subject(EMPTY, binding.user.value, EMPTY)
    else if binding.policy.Value? then Subject(EMPTY, 0, binding.policy.value)
    else Subject(EMPTY, 0, EMPTY)
  }

  function Negated(binding: Binding): bool {
    binding.negate == Some(true)
  }

  predicate ValidRules(rules: seq<Rule>) {
    forall i :: 0 <= i < |rules| ==> ValidRule(rules[i])
  }

  function RuleClass(rule: Rule): Class
    requires ValidRule(rule)
  {
    Class(RuleSubject(rule), rule.negate)
  }

  function BindingClass(binding: Binding): Class {
    Class(ObservedSubject(binding), Negated(binding))
  }

  predicate DistinctPks(bindings: seq<Binding>) {
    forall i, j :: 0 <= i < j < |bindings| ==> bindings[i].pk != bindings[j].pk
  }

  /** Rule i is represented by the Binding assigned to it, with the same negate. */
  predicate Exact(rules: seq<Rule>, matched: seq<Option<Binding>>, i: int)
    requires ValidRules(rules) && |matched| == |rules| && 0 <= i < |rules|
  {
    matched[i].Some? && BindingClass(matched[i].value) == RuleClass(rules[i])
  }

  /** An assignment by subject that gives no Binding to two rules. */
  ghost predicate Assignment(rules: seq<Rule>, bindings: seq<Binding>, matched: seq<Option<Binding>>)
    requires ValidRules(rules)
  {
    && |matched| == |rules|
    && (forall i :: 0 <= i < |rules| && matched[i].Some? ==>
          matched[i].value in bindings && ObservedSubject(matched[i].value) == RuleSubject(rules[i]))
    && (forall i, j :: 0 <= i < j < |rules| && matched[i].Some? && matched[j].Some? ==>
          matched[i].value.pk != matched[j].value.pk)
  }

  ghost predicate UsedExactly(rules: seq<Rule>, matched: seq<Option<Binding>>, binding: Binding)
    requires ValidRules(rules) && |matched| == |rules|
  {
    exists j :: 0 <= j < |rules| && matched[j] == Some(binding) && Exact(rules, matched, j)
  }

  /**
   What the operator relies on. A rule without an exact Binding leaves no Binding of its class that an exact
   match does not use, and a rule without any Binding leaves no Binding of its subject unused.
   */
  ghost predicate BestAssignment(rules: seq<Rule>, bindings: seq<Binding>, exactOnly: bool, matched: seq<Option<Binding>>)
    requires ValidRules(rules)
  {
    && Assignment(rules, bindings, matched)
    && (exactOnly ==> forall i :: 0 <= i < |rules| && matched[i].Some? ==> Exact(rules, matched, i))
    && (forall i, b :: 0 <= i < |rules| && !Exact(rules, matched, i) && b in bindings && BindingClass(b) == RuleClass(rules[i]) ==>
          UsedExactly(rules, matched, b))
    && (!exactOnly ==> forall i, b ::
        0 <= i < |rules| && matched[i].None? && b in bindings && ObservedSubject(b) == RuleSubject(rules[i]) ==>
          Some(b) in matched)
  }

  /** A pass with exactNegate takes a Binding for a rule of its class only; otherwise the subject decides. */
  predicate Fits(rule: Rule, binding: Binding, exactNegate: bool)
    requires ValidRule(rule)
  {
    ObservedSubject(binding) == RuleSubject(rule) && (exactNegate ==> Negated(binding) == rule.negate)
  }

  /** The state between two iterations of a pass: used maps the pk of every assigned Binding to its rule. */
  ghost predicate Partial(rules: seq<Rule>, bindings: seq<Binding>, matched: seq<Option<Binding>>, used: map<Key, nat>)
    requires ValidRules(rules)
  {
    && |matched| == |rules|
    && (forall i :: 0 <= i < |rules| && matched[i].Some? ==>
          && matched[i].value in bindings && ObservedSubject(matched[i].value) == RuleSubject(rules[i])
          && matched[i].value.pk in used && used[matched[i].value.pk] == i)
    && (forall pk :: pk in used ==> used[pk] < |rules| && matched[used[pk]].Some? && matched[used[pk]].value.pk == pk)
  }

  /** No Binding that rule i could take is left; with exactNegate, only Bindings of its class count. */
  ghost predicate Exhausted(rules: seq<Rule>, bindings: seq<Binding>, used: map<Key, nat>, i: nat, exactNegate: bool)
    requires ValidRules(rules) && i < |rules|
  {
    forall b :: b in bindings && Fits(rules[i], b, exactNegate) ==> b.pk in used
  }

  /** Rules of the same class are served in their order. */
  ghost predicate InOrder(rules: seq<Rule>, matched: seq<Option<Binding>>)
    requires ValidRules(rules) && |matched| == |rules|
  {
    forall i, j :: 0 <= i < j < |rules| && RuleClass(rules[i]) == RuleClass(rules[j]) && matched[j].Some? ==> matched[i].Some?
  }

  /** The first unused Binding that fits a rule. */
  method FindUnused(rule: Rule, bindings: seq<Binding>, used: map<Key, nat>, exactNegate: bool) returns (found: Option<Binding>)
    requires ValidRule(rule)
    ensures found.Some? ==> found.value in bindings && found.value.pk !in used && Fits(rule, found.value, exactNegate)
    ensures found.Some? ==>
              exists k ::
                && 0 <= k < |bindings| && bindings[k] == found.value
                && forall j :: 0 <= j < k && Fits(rule, bindings[j], exactNegate) ==> bindings[j].pk in used
    ensures found.None? ==> forall b :: b in bindings && Fits(rule, b, exactNegate) ==> b.pk in used
  {
    for k := 0 to |bindings|
      invariant forall j :: 0 <= j < k && Fits(rule, bindings[j], exactNegate) ==> bindings[j].pk in used
    {
      if bindings[k].pk !in used && Fits(rule, bindings[k], exactNegate) {
        return Some(bindings[k]);
      }
    }
    return None;
  }

  /** Giving an unused Binding of its subject to a rule that has none keeps a partial assignment. */
  lemma PartialNext(rules: seq<Rule>, bindings: seq<Binding>, matched: seq<Option<Binding>>, used: map<Key, nat>, i: nat,
                    b: Binding, exactNegate: bool)
    requires ValidRules(rules) && Partial(rules, bindings, matched, used) && i < |rules| && matched[i].None?
    requires b in bindings && b.pk !in used && Fits(rules[i], b, exactNegate)
    ensures Partial(rules, bindings, matched[i := Some(b)], used[b.pk := i])
  {
    hide ObservedSubject, RuleSubject, ValidRule;
  }

  /** A rule that is served only once every earlier rule of its class has been is served in order. */
  lemma InOrderNext(rules: seq<Rule>, matched: seq<Option<Binding>>, i: nat, b: Binding)
    requires ValidRules(rules) && |matched| == |rules| && InOrder(rules, matched) && i < |rules|
    requires forall j :: 0 <= j < i && RuleClass(rules[j]) == RuleClass(rules[i]) ==> matched[j].Some?
    ensures InOrder(rules, matched[i := Some(b)])
  {
    hide RuleClass, ValidRule;
  }

  /** While a Binding that fits a rule is unused, no rule of the same class has been left without one. */
  lemma NotExhausted(rules: seq<Rule>, bindings: seq<Binding>, used: map<Key, nat>, j: nat, i: nat, exactNegate: bool, b: Binding)
    requires ValidRules(rules) && j < |rules| && i < |rules| && RuleClass(rules[j]) == RuleClass(rules[i])
    requires b in bindings && b.pk !in used && Fits(rules[i], b, exactNegate)
    ensures !Exhausted(rules, bindings, used, j, exactNegate)
  {
    assert Fits(rules[j], b, exactNegate);
  }

  lemma NoneLeft(rules: seq<Rule>, bindings: seq<Binding>, used: map<Key, nat>, i: nat, exactNegate: bool)
    requires ValidRules(rules) && i < |rules| && forall b :: b in bindings && Fits(rules[i], b, exactNegate) ==> b.pk in used
    ensures Exhausted(rules, bindings, used, i, exactNegate)
  {}

  lemma MoreUsed(rules: seq<Rule>, bindings: seq<Binding>, used: map<Key, nat>, pk: Key, i: nat, exactNegate: bool)
    requires ValidRules(rules)
    ensures forall j :: 0 <= j < |rules| && Exhausted(rules, bindings, used, j, exactNegate) ==>
              Exhausted(rules, bindings, used[pk := i], j, exactNegate)
  {
    hide Fits;
  }

  lemma PartialLength(rules: seq<Rule>, bindings: seq<Binding>, matched: seq<Option<Binding>>, used: map<Key, nat>)
    requires ValidRules(rules) && Partial(rules, bindings, matched, used)
    ensures |matched| == |rules|
  {}

  /** One pass over the rules: the first unused Binding that fits is taken. */
  method Assign(rules: seq<Rule>, bindings: seq<Binding>, matched0: seq<Option<Binding>>, used0: map<Key, nat>, exactNegate: bool)
    returns (matched: seq<Option<Binding>>, used: map<Key, nat>)
    requires ValidRules(rules) && Partial(rules, bindings, matched0, used0) && InOrder(rules, matched0)
    ensures Partial(rules, bindings, matched, used) && InOrder(rules, matched)
    ensures forall i :: 0 <= i < |rules| && matched0[i].Some? ==> matched[i] == matched0[i]
    ensures forall i :: 0 <= i < |rules| && matched[i].None? ==> Exhausted(rules, bindings, used, i, exactNegate)
    ensures forall i :: 0 <= i < |rules| && matched[i].Some? && matched0[i].None? ==> Fits(rules[i], matched[i].value, exactNegate)
    ensures forall pk :: pk in used0 ==> pk in used && used[pk] == used0[pk]
  {
    hide InOrder, Fits, RuleClass, Partial, Exhausted;
    matched, used := matched0, used0;
    PartialLength(rules, bindings, matched, used);
    for i := 0 to |rules|
      invariant |matched| == |rules| && Partial(rules, bindings, matched, used) && InOrder(rules, matched)
      invariant forall j :: 0 <= j < |rules| && (matched0[j].Some? || i <= j) ==> matched[j] == matched0[j]
      invariant forall j :: 0 <= j < i && matched[j].None? ==> Exhausted(rules, bindings, used, j, exactNegate)
      invariant forall j :: 0 <= j < i && matched[j].Some? && matched0[j].None? ==> Fits(rules[j], matched[j].value, exactNegate)
      invariant forall pk :: pk in used0 ==> pk in used && used[pk] == used0[pk]
    {
      if matched[i].Some? {
        continue;
      }
      var found := FindUnused(rules[i], bindings, used, exactNegate);
      if found.Some? {
        forall j | 0 <= j < i && RuleClass(rules[j]) == RuleClass(rules[i]) ensures matched[j].Some? {
          NotExhausted(rules, bindings, used, j, i, exactNegate, found.value);
        }
        PartialNext(rules, bindings, matched, used, i, found.value, exactNegate);
        InOrderNext(rules, matched, i, found.value);
        MoreUsed(rules, bindings, used, found.value.pk, i, exactNegate);
        matched, used := matched[i := found], used[found.value.pk := i];
      } else {
        NoneLeft(rules, bindings, used, i, exactNegate);
      }
    }
  }

  /** matchBindings: an exact pass, followed by a pass that ignores negate unless exactOnly is set. */
  method MatchBindings(rules: seq<Rule>, bindings: seq<Binding>, exactOnly: bool) returns (matched: seq<Option<Binding>>)
    requires ValidRules(rules) && DistinctPks(bindings)
    ensures BestAssignment(rules, bindings, exactOnly, matched) && InOrder(rules, matched)
  {
    var none: seq<Option<Binding>> := seq(|rules|, _ => None);
    var used: map<Key, nat>;
    matched, used := Assign(rules, bindings, none, map[], true);
    ghost var first, usedFirst := matched, used;
    if !exactOnly {
      matched, used := Assign(rules, bindings, matched, used, false);
    }
    forall i, b | 0 <= i < |rules| && !Exact(rules, matched, i) && b in bindings && BindingClass(b) == RuleClass(rules[i])
      ensures UsedExactly(rules, matched, b)
    {
      assert Exhausted(rules, bindings, usedFirst, i, true);
      var j := usedFirst[b.pk];
      SamePk(bindings, b, first[j].value);
      assert matched[j] == Some(b) && Exact(rules, first, j);
    }
    if !exactOnly {
      forall i, b | 0 <= i < |rules| && matched[i].None? && b in bindings && ObservedSubject(b) == RuleSubject(rules[i])
        ensures Some(b) in matched
      {
        assert Exhausted(rules, bindings, used, i, false);
        SamePk(bindings, b, matched[used[b.pk]].value);
      }
    }
  }

  lemma SamePk(bindings: seq<Binding>, a: Binding, b: Binding)
    requires DistinctPks(bindings) && a in bindings && b in bindings && a.pk == b.pk
    ensures a == b
  {}

  lemma MatchLength(rules: seq<Rule>, bindings: seq<Binding>, exactOnly: bool, matched: seq<Option<Binding>>)
    requires ValidRules(rules) && BestAssignment(rules, bindings, exactOnly, matched)
    ensures |matched| == |rules|
  {}

  // ---------- optimality ----------

  function RulesOf(rules: seq<Rule>, wanted: Class): set<nat>
    requires ValidRules(rules)
  {
    set i | 0 <= i < |rules| && RuleClass(rules[i]) == wanted
  }

  function BindingsOf(bindings: seq<Binding>, wanted: Class): set<Binding> {
    set b | b in bindings && BindingClass(b) == wanted
  }

  /** The rules of a class that hold a Binding of that class. */
  function ExactOf(rules: seq<Rule>, matched: seq<Option<Binding>>, wanted: Class): set<nat>
    requires ValidRules(rules) && |matched| == |rules|
  {
    set i | 0 <= i < |rules| && RuleClass(rules[i]) == wanted && Exact(rules, matched, i)
  }

  function RulesFor(rules: seq<Rule>, subject: Subject): set<nat>
    requires ValidRules(rules)
  {
    set i | 0 <= i < |rules| && RuleSubject(rules[i]) == subject
  }

  function BindingsFor(bindings: seq<Binding>, subject: Subject): set<Binding> {
    set b | b in bindings && ObservedSubject(b) == subject
  }

  function MatchedFor(rules: seq<Rule>, matched: seq<Option<Binding>>, subject: Subject): set<nat>
    requires ValidRules(rules) && |matched| == |rules|
  {
    set i | 0 <= i < |rules| && RuleSubject(rules[i]) == subject && matched[i].Some?
  }

  function Min(a: nat, b: nat): nat {
    if a <= b then a else b
  }

  /** The Bindings held by a set of matched rules are as many as the rules. */
  lemma HeldBindings(rules: seq<Rule>, bindings: seq<Binding>, matched: seq<Option<Binding>>, holders: set<nat>)
    requires ValidRules(rules) && Assignment(rules, bindings, matched)
    requires forall i :: i in holders ==> i < |rules| && matched[i].Some?
    ensures |set i | i in holders :: matched[i].value| == |holders|
  {
    var image := map i | i in holders :: matched[i].value;
    InjectiveImageSize(holders, image);
    assert (set i | i in holders :: matched[i].value) == (set i | i in holders :: image[i]);
  }

  /** No assignment by subject makes more exact matches in a class than the class has rules or Bindings. */
  lemma ExactBound(rules: seq<Rule>, bindings: seq<Binding>, matched: seq<Option<Binding>>, wanted: Class)
    requires ValidRules(rules) && Assignment(rules, bindings, matched)
    ensures |ExactOf(rules, matched, wanted)| <= Min(|RulesOf(rules, wanted)|, |BindingsOf(bindings, wanted)|)
  {
    var exact := ExactOf(rules, matched, wanted);
    var held := set i | i in exact :: matched[i].value;
    HeldBindings(rules, bindings, matched, exact);
    SubsetSize(exact, RulesOf(rules, wanted));
    SubsetSize(held, BindingsOf(bindings, wanted));
  }

  lemma MatchedBound(rules: seq<Rule>, bindings: seq<Binding>, matched: seq<Option<Binding>>, subject: Subject)
    requires ValidRules(rules) && Assignment(rules, bindings, matched)
    ensures |MatchedFor(rules, matched, subject)| <= Min(|RulesFor(rules, subject)|, |BindingsFor(bindings, subject)|)
  {
    var holders := MatchedFor(rules, matched, subject);
    var held := set i | i in holders :: matched[i].value;
    HeldBindings(rules, bindings, matched, holders);
    SubsetSize(holders, RulesFor(rules, subject));
    SubsetSize(held, BindingsFor(bindings, subject));
  }

  /** Per class, the best assignment makes min(#rules, #Bindings) exact matches. */
  lemma ExactMatchesOptimal(rules: seq<Rule>, bindings: seq<Binding>, exactOnly: bool, matched: seq<Option<Binding>>, wanted: Class)
    requires ValidRules(rules) && DistinctPks(bindings) && BestAssignment(rules, bindings, exactOnly, matched)
    ensures |ExactOf(rules, matched, wanted)| == Min(|RulesOf(rules, wanted)|, |BindingsOf(bindings, wanted)|)
  {
    var exact, all := ExactOf(rules, matched, wanted), RulesOf(rules, wanted);
    ExactBound(rules, bindings, matched, wanted);
    if exact != all {
      var i :| i in all && i !in exact;
      var held := set j | j in exact :: matched[j].value;
      HeldBindings(rules, bindings, matched, exact);
      forall b | b in BindingsOf(bindings, wanted) ensures b in held {
        assert UsedExactly(rules, matched, b);
        var j :| 0 <= j < |rules| && matched[j] == Some(b) && Exact(rules, matched, j);
        assert j in exact;
      }
      SubsetSize(BindingsOf(bindings, wanted), held);
    }
  }

  /** Per subject, the best assignment with both passes makes min(#rules, #Bindings) matches. */
  lemma MatchesOptimal(rules: seq<Rule>, bindings: seq<Binding>, matched: seq<Option<Binding>>, subject: Subject)
    requires ValidRules(rules) && DistinctPks(bindings) && BestAssignment(rules, bindings, false, matched)
    ensures |MatchedFor(rules, matched, subject)| == Min(|RulesFor(rules, subject)|, |BindingsFor(bindings, subject)|)
  {
    var holders, all := MatchedFor(rules, matched, subject), RulesFor(rules, subject);
    MatchedBound(rules, bindings, matched, subject);
    if holders != all {
      var i :| i in all && i !in holders;
      var held := set j | j in holders :: matched[j].value;
      HeldBindings(rules, bindings, matched, holders);
      forall b | b in BindingsFor(bindings, subject) ensures b in held {
        assert Some(b) in matched;
        var j :| 0 <= j < |matched| && matched[j] == Some(b);
        assert j in holders;
      }
      SubsetSize(BindingsFor(bindings, subject), held);
    }
  }

  /**
   Two best assignments of the same Bindings, listed in any order, serve every class and every subject equally
   well, and no assignment at all serves one better.
   */
  lemma NoAssignmentIsBetter(rules: seq<Rule>, bindings: seq<Binding>, matched: seq<Option<Binding>>,
                             other: seq<Option<Binding>>, wanted: Class)
    requires ValidRules(rules) && DistinctPks(bindings) && BestAssignment(rules, bindings, false, matched)
    requires Assignment(rules, bindings, other)
    ensures |ExactOf(rules, other, wanted)| <= |ExactOf(rules, matched, wanted)|
    ensures |MatchedFor(rules, other, wanted.subject)| <= |MatchedFor(rules, matched, wanted.subject)|
  {
    ExactMatchesOptimal(rules, bindings, false, matched, wanted);
    ExactBound(rules, bindings, other, wanted);
    MatchesOptimal(rules, bindings, matched, wanted.subject);
    MatchedBound(rules, bindings, other, wanted.subject);
  }

  /** A Binding given to a rule of another negate is not needed: every rule of its own class holds an exact one. */
  lemma InexactMatchIsSpare(rules: seq<Rule>, bindings: seq<Binding>, matched: seq<Option<Binding>>, k: nat, j: nat)
    requires ValidRules(rules) && BestAssignment(rules, bindings, false, matched)
    requires k < |rules| && j < |rules| && matched[k].Some? && !Exact(rules, matched, k)
    requires RuleClass(rules[j]) == BindingClass(matched[k].value)
    ensures Exact(rules, matched, j) && matched[j].value.pk != matched[k].value.pk
  {
    assert !Exact(rules, matched, j) ==> UsedExactly(rules, matched, matched[k].value);
  }
}
