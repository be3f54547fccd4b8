/**
 How many Bindings interrupted passes create (internal/controller/bindings.go). A pass that is cut off loses the UUID of
 at most one Binding, which the next pass finds as an unmanaged one; whether it adopts that Binding decides whether the
 passes together create more than one uninterrupted pass.
 */
module BindingTally {
  import opened Base
  import opened Api
  import opened Matching
  import opened BindingPlan

  // ---------- runs, seen from one class ----------

  /** The rules of a class, how many of them the managed Bindings serve, and the unmanaged Bindings of the class. */
  datatype Tally = Tally(rules: nat, covered: nat, spare: nat) {
    predicate Valid() {
      covered <= rules
    }

    /** The rules that have a Binding once unmanaged ones are adopted. */
    function Served(): nat {
      if covered < Min(rules, spare) then Min(rules, spare) else covered
    }

    /** How many Bindings an uninterrupted pass creates. */
    function Needed(): nat
      requires Valid()
    {
      rules - Served()
    }

    /** No interruption makes the passes create more Bindings than an uninterrupted one. */
    predicate Recoverable() {
      || rules <= 1
      || covered >= rules
      || spare >= 2 * rules - 1 - covered
      || (covered == rules - 1 && spare >= rules - 1)
    }
  }

  /** The pass stopped while it adopted: what unmanaged Bindings lost, the managed ones gained. */
  predicate StoppedAdopting(t: Tally, u: Tally) {
    && t.covered <= u.covered
    && t.spare - u.spare <= Min(u.covered, t.Served()) - t.covered
  }

  /** The pass stopped while it wrote; the UUID of the last new Binding may be lost. */
  predicate StoppedWriting(t: Tally, u: Tally, created: nat, lost: nat)
    requires t.Valid()
  {
    && lost <= 1 && lost <= created <= t.Needed()
    && t.Served() + created - lost <= u.covered
    && t.spare - (t.Served() - t.covered) + lost <= u.spare
  }

  /** The pass stopped after its last write, or went through. */
  predicate Passed(t: Tally, u: Tally, created: nat)
    requires t.Valid()
  {
    created == t.Needed() && u.covered == t.rules
  }

  /** One pass, wherever it ends. */
  predicate Attempt(t: Tally, u: Tally, created: nat)
    requires t.Valid()
  {
    && u.Valid() && u.rules == t.rules
    && (|| (StoppedAdopting(t, u) && created == 0)
        || StoppedWriting(t, u, created, 0)
        || StoppedWriting(t, u, created, 1)
        || Passed(t, u, created))
  }

  /** Consecutive passes: the tally between any two of them, and what each pass created. */
  ghost predicate Run(tallies: seq<Tally>, created: seq<nat>) {
    && |tallies| == |created| + 1
    && (forall i :: 0 <= i < |tallies| ==> tallies[i].Valid())
    && forall i :: 0 <= i < |created| ==> Attempt(tallies[i], tallies[i + 1], created[i])
  }

  function Sum(created: seq<nat>): nat {
    if created == [] then 0 else created[0] + Sum(created[1..])
  }

  /** In a recoverable class every pass takes from what is needed what it creates, and the class stays recoverable. */
  lemma RecoverableStep(t: Tally, u: Tally, created: nat)
    requires t.Valid() && t.Recoverable() && Attempt(t, u, created)
    ensures u.Recoverable() && created + u.Needed() <= t.Needed() <= 1
  {}

  lemma {:induction false} RecoverableRun(tallies: seq<Tally>, created: seq<nat>)
    requires Run(tallies, created) && tallies[0].Recoverable()
    ensures Sum(created) + tallies[|created|].Needed() <= tallies[0].Needed()
  {
    if created != [] {
      RecoverableStep(tallies[0], tallies[1], created[0]);
      RecoverableRun(tallies[1..], created[1..]);
    }
  }

  /** Two passes that create too much: one Binding is lost, or one too few is adopted, and the next pass does not see it. */
  lemma WastefulRun(t: Tally) returns (tallies: seq<Tally>, created: seq<nat>)
    requires t.Valid() && !t.Recoverable()
    ensures Run(tallies, created) && tallies[0] == t && Sum(created) == t.Needed() + 1
  {
    var n, served := t.rules, t.Served();
    var middle, first;
    if served == n {
      // all unmanaged Bindings but one are adopted, and the one left over is offered to a rule that is served
      middle, first := Tally(n, n - 1, t.spare - (n - 1 - t.covered)), 0;
    } else {
      // every missing Binding is created, and the last one is lost
      middle, first := Tally(n, n - 1, t.spare - (served - t.covered) + 1), n - served;
    }
    tallies, created := [t, middle, Tally(n, n, 0)], [first, 1];
    assert Attempt(t, middle, first);
    assert Attempt(middle, Tally(n, n, 0), 1);
    assert created[1..] == [1] && [1][1..] == [];
    assert Sum(created) == first + Sum([1]) == first + 1;
  }

  /** The condition is exact: a class is recoverable if and only if no run of passes creates more than one pass would. */
  lemma RecoverableExactly(t: Tally)
    requires t.Valid()
    ensures t.Recoverable() <==> forall tallies, created :: Run(tallies, created) && tallies[0] == t ==> Sum(created) <= t.Needed()
  {
    if t.Recoverable() {
      forall tallies, created | Run(tallies, created) && tallies[0] == t ensures Sum(created) <= t.Needed() {
        RecoverableRun(tallies, created);
      }
    } else {
      var tallies, created := WastefulRun(t);
    }
  }

  // ---------- the tally of a state ----------

  function Opposite(wanted: Class): Class {
    Class(wanted.subject, !wanted.negate)
  }

  /** The Bindings of a class on the target. */
  ghost function OnTarget(bindings: map<Key, Binding>, target: Key, wanted: Class): set<Key> {
    set k | k in bindings && bindings[k].target == target && BindingClass(bindings[k]) == wanted
  }

  /** What is left of some for the others. */
  function Surplus(have: nat, need: nat): nat {
    if have > need then have - need else 0
  }

  /**
   The managed Bindings of a class serve its rules, and so do those of the opposite negate that its own rules leave
   over, because the operator repairs the negate of a managed Binding.
   */
  ghost function TallyOf(rules: seq<Rule>, target: Key, bindings: map<Key, Binding>, managed: set<Key>, wanted: Class): (t: Tally)
    requires ValidRules(rules)
    ensures t.Valid()
  {
    var left := Surplus(|OnTarget(bindings, target, Opposite(wanted)) * managed|, |RulesOf(rules, Opposite(wanted))|);
    Tally(|RulesOf(rules, wanted)|,
          Min(|RulesOf(rules, wanted)|, |OnTarget(bindings, target, wanted) * managed| + left),
          |OnTarget(bindings, target, wanted) - managed|)
  }

  /** A list of Bindings of the target has as many of a class as there are keys. */
  lemma ListedOfClass(target: Key, bindings: map<Key, Binding>, list: seq<Binding>, keys: set<Key>, wanted: Class)
    requires ValidBindingKeys(bindings)
    requires forall b :: b in list <==> b.pk in bindings && bindings[b.pk] == b && b.target == target && b.pk in keys
    ensures |BindingsOf(list, wanted)| == |OnTarget(bindings, target, wanted) * keys|
  {
    hide BindingClass;
    var domain := OnTarget(bindings, target, wanted) * keys;
    var image := map k | k in domain :: bindings[k];
    InjectiveImageSize(domain, image);
    forall b | b in BindingsOf(list, wanted) ensures b in set k | k in domain :: image[k] {
      assert b.pk in domain && image[b.pk] == b;
    }
    assert BindingsOf(list, wanted) == set k | k in domain :: image[k];
  }

  /** The rules of a class that an assignment serves with a Binding of the opposite negate. */
  function InexactOf(rules: seq<Rule>, matched: seq<Option<Binding>>, wanted: Class): set<nat>
    requires ValidRules(rules) && |matched| == |rules|
  {
    set i | 0 <= i < |rules| && RuleClass(rules[i]) == wanted && matched[i].Some? && !Exact(rules, matched, i)
  }

  lemma MatchedParts(rules: seq<Rule>, matched: seq<Option<Binding>>, wanted: Class)
    requires ValidRules(rules) && |matched| == |rules|
    ensures |Matched(rules, matched, wanted)| == |ExactOf(rules, matched, wanted)| + |InexactOf(rules, matched, wanted)|
  {
    hide RuleClass, BindingClass;
    assert Matched(rules, matched, wanted) == ExactOf(rules, matched, wanted) + InexactOf(rules, matched, wanted);
  }

  lemma SubjectParts(rules: seq<Rule>, bindings: seq<Binding>, matched: seq<Option<Binding>>, wanted: Class)
    requires ValidRules(rules) && |matched| == |rules|
    ensures |RulesFor(rules, wanted.subject)| == |RulesOf(rules, wanted)| + |RulesOf(rules, Opposite(wanted))|
    ensures |BindingsFor(bindings, wanted.subject)| == |BindingsOf(bindings, wanted)| + |BindingsOf(bindings, Opposite(wanted))|
    ensures |MatchedFor(rules, matched, wanted.subject)|
            == |Matched(rules, matched, wanted)| + |Matched(rules, matched, Opposite(wanted))|
  {
    hide RuleSubject, ObservedSubject, Negated;
    assert RulesFor(rules, wanted.subject) == RulesOf(rules, wanted) + RulesOf(rules, Opposite(wanted));
    assert BindingsFor(bindings, wanted.subject) == BindingsOf(bindings, wanted) + BindingsOf(bindings, Opposite(wanted));
    assert MatchedFor(rules, matched, wanted.subject)
           == Matched(rules, matched, wanted) + Matched(rules, matched, Opposite(wanted));
  }

  /** A class that lacks an exact match lends nothing to the opposite one. */
  lemma NothingLent(rules: seq<Rule>, bindings: seq<Binding>, matched: seq<Option<Binding>>, wanted: Class)
    requires ValidRules(rules) && BestAssignment(rules, bindings, false, matched)
    requires |ExactOf(rules, matched, wanted)| < |RulesOf(rules, wanted)|
    ensures InexactOf(rules, matched, Opposite(wanted)) == {}
  {
    if k :| k in InexactOf(rules, matched, Opposite(wanted)) {
      forall j | j in RulesOf(rules, wanted) ensures j in ExactOf(rules, matched, wanted) {
        InexactMatchIsSpare(rules, bindings, matched, k, j);
      }
      SubsetSize(RulesOf(rules, wanted), ExactOf(rules, matched, wanted));
    }
  }

  /** The tally counts what the assignment of the managed Bindings serves. */
  lemma CoveredIsMatched(rules: seq<Rule>, target: Key, bindings: map<Key, Binding>, managed: set<Key>, ours: seq<Binding>,
                         others: seq<Binding>, matched: seq<Option<Binding>>, wanted: Class)
    requires ValidRules(rules) && ValidBindingKeys(bindings) && DistinctPks(ours) && Split(target, bindings, managed, ours, others)
    requires BestAssignment(rules, ours, false, matched)
    ensures |matched| == |rules| && |Matched(rules, matched, wanted)| == TallyOf(rules, target, bindings, managed, wanted).covered
  {
    hide RulesOf, ExactOf, InexactOf, Matched, BindingsOf, OnTarget, RulesFor, BindingsFor, MatchedFor, Exact, BestAssignment,
      DistinctPks, ValidBindingKeys, ValidRules;
    var other := Opposite(wanted);
    MatchLength(rules, ours, false, matched);
    ListedOfClass(target, bindings, ours, managed, wanted);
    ListedOfClass(target, bindings, ours, managed, other);
    ExactMatchesOptimal(rules, ours, false, matched, wanted);
    ExactMatchesOptimal(rules, ours, false, matched, other);
    MatchesOptimal(rules, ours, matched, wanted.subject);
    MatchedParts(rules, matched, wanted);
    MatchedParts(rules, matched, other);
    SubjectParts(rules, ours, matched, wanted);
    MatchedAreRules(rules, matched, wanted);
    if |ExactOf(rules, matched, wanted)| < |RulesOf(rules, wanted)| {
      NothingLent(rules, ours, matched, wanted);
    }
  }

  lemma MatchedAreRules(rules: seq<Rule>, matched: seq<Option<Binding>>, wanted: Class)
    requires ValidRules(rules) && |matched| == |rules|
    ensures |Matched(rules, matched, wanted)| <= |RulesOf(rules, wanted)|
  {
    SubsetSize(Matched(rules, matched, wanted), RulesOf(rules, wanted));
  }

  /**
   Every rule may hold one Binding of its subject that is managed, and a Binding is lent to the opposite negate only
   when every rule of its own class holds an exact one.
   */
  ghost predicate Holds(rules: seq<Rule>, target: Key, bindings: map<Key, Binding>, managed: set<Key>,
                        matched: seq<Option<Binding>>)
    requires ValidRules(rules)
  {
    && |matched| == |rules|
    && (forall i :: 0 <= i < |rules| && matched[i].Some? ==> HeldBy(rules[i], target, bindings, managed, matched[i].value))
    && (forall i, j :: 0 <= i < j < |rules| && matched[i].Some? && matched[j].Some? ==> matched[i].value.pk != matched[j].value.pk)
    && (forall i, j ::
          (&& 0 <= i < |rules| && 0 <= j < |rules| && matched[i].Some? && !Exact(rules, matched, i)
           && RuleClass(rules[j]) == BindingClass(matched[i].value))
          ==> Exact(rules, matched, j))
  }

  predicate HeldBy(rule: Rule, target: Key, bindings: map<Key, Binding>, managed: set<Key>, b: Binding)
    requires ValidRule(rule)
  {
    b.pk in bindings && bindings[b.pk] == b && b.target == target && b.pk in managed && ObservedSubject(b) == RuleSubject(rule)
  }

  /** No such assignment serves more rules of a class than the tally says. */
  lemma CoveredBound(rules: seq<Rule>, target: Key, bindings: map<Key, Binding>, managed: set<Key>,
                     matched: seq<Option<Binding>>, wanted: Class)
    requires ValidRules(rules) && Holds(rules, target, bindings, managed, matched)
    ensures |Matched(rules, matched, wanted)| <= TallyOf(rules, target, bindings, managed, wanted).covered
  {
    hide RulesOf, ExactOf, InexactOf, Matched, OnTarget, ValidRules, Exact;
    HeldExactly(rules, target, bindings, managed, matched, wanted);
    HeldInexactly(rules, target, bindings, managed, matched, wanted);
    MatchedParts(rules, matched, wanted);
    MatchedAreRules(rules, matched, wanted);
  }

  lemma HeldExactly(rules: seq<Rule>, target: Key, bindings: map<Key, Binding>, managed: set<Key>,
                    matched: seq<Option<Binding>>, wanted: Class)
    requires ValidRules(rules) && Holds(rules, target, bindings, managed, matched)
    ensures |ExactOf(rules, matched, wanted)| <= |OnTarget(bindings, target, wanted) * managed|
  {
    hide RuleClass, BindingClass, RuleSubject, ObservedSubject, ValidRule;
    HeldKeys(rules, matched, ExactOf(rules, matched, wanted), OnTarget(bindings, target, wanted) * managed);
  }

  lemma HeldInexactly(rules: seq<Rule>, target: Key, bindings: map<Key, Binding>, managed: set<Key>,
                      matched: seq<Option<Binding>>, wanted: Class)
    requires ValidRules(rules) && Holds(rules, target, bindings, managed, matched)
    ensures |InexactOf(rules, matched, wanted)|
            <= Surplus(|OnTarget(bindings, target, Opposite(wanted)) * managed|, |RulesOf(rules, Opposite(wanted))|)
  {
    var other, inexact := Opposite(wanted), InexactOf(rules, matched, wanted);
    if k :| k in inexact {
      var all := RulesOf(rules, other);
      forall i | i in inexact ensures BindingClass(matched[i].value) == other {}
      forall i | i in all ensures Exact(rules, matched, i) {
        assert RuleClass(rules[i]) == BindingClass(matched[k].value);
      }
      hide RuleClass, BindingClass, RuleSubject, ObservedSubject, ValidRule;
      HeldKeys(rules, matched, inexact + all, OnTarget(bindings, target, other) * managed);
      assert |inexact + all| == |inexact| + |all|;
    }
  }

  /** Rules that hold distinct Bindings among some keys are no more than the keys. */
  lemma HeldKeys(rules: seq<Rule>, matched: seq<Option<Binding>>, holders: set<nat>, keys: set<Key>)
    requires |matched| == |rules|
    requires forall i :: i in holders ==> i < |rules| && matched[i].Some? && matched[i].value.pk in keys
    requires forall i, j :: 0 <= i < j < |rules| && matched[i].Some? && matched[j].Some? ==>
               matched[i].value.pk != matched[j].value.pk
    ensures |holders| <= |keys|
  {
    var image := map i | i in holders :: matched[i].value.pk;
    forall i, j | i in holders && j in holders && i != j ensures image[i] != image[j] {
      assert i < j || j < i;
    }
    InjectiveImageSize(holders, image);
    SubsetSize(set i | i in holders :: image[i], keys);
  }
}
