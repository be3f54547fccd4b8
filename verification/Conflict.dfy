/** One winner per slug among the resources that share it (internal/controller/conflict.go). */
module Conflict {
  import opened Base

  type Uid = nat

  datatype Candidate = Candidate(uid: Uid, namespace: string, name: string, slug: string, created: int, applicationPk: Option<Key>,
                                 deleting: bool)
  {
    predicate Recorded() {
      applicationPk.Some?
    }
  }

  // ---------- the order ----------

  function CompareInt(a: int, b: int): int {
    if a < b then -1 else if a > b then 1 else 0
  }

  /** Lexicographic comparison of strings. */
  function CompareString(a: string, b: string): (c: int)
    ensures -1 <= c <= 1
  {
    if a == [] then (if b == [] then 0 else -1)
    else if b == [] then 1
    else if a[0] != b[0] then CompareInt(a[0] as int, b[0] as int)
    else CompareString(a[1..], b[1..])
  }

  lemma {:induction false} StringAntisymmetric(a: string, b: string)
    ensures CompareString(a, b) == -CompareString(b, a)
    ensures CompareString(a, b) == 0 <==> a == b
  {
    if a != [] && b != [] && a[0] == b[0] {
      StringAntisymmetric(a[1..], b[1..]);
      assert a == [a[0]] + a[1..] && b == [b[0]] + b[1..];
    }
  }

  lemma {:induction false} StringTransitive(a: string, b: string, c: string)
    requires CompareString(a, b) <= 0 && CompareString(b, c) <= 0
    ensures CompareString(a, c) <= 0
    ensures CompareString(a, b) < 0 || CompareString(b, c) < 0 ==> CompareString(a, c) < 0
  {
    if a != [] && b != [] && c != [] && a[0] == b[0] == c[0] {
      StringTransitive(a[1..], b[1..], c[1..]);
    }
  }

  /** cmp.Or: the first of the comparisons that decides. */
  function FirstDecided(a: int, b: int): int {
    if a != 0 then a else b
  }

  /** A recorded Application pk comes first, then age; ties are broken by namespace and name. */
  function Compare(a: Candidate, b: Candidate): int {
    if a.Recorded() != b.Recorded() then (if a.Recorded() then -1 else 1)
    else FirstDecided(CompareInt(a.created, b.created),
                      FirstDecided(CompareString(a.namespace, b.namespace), CompareString(a.name, b.name)))
  }

  /** Resources are told apart by namespace and name, and by UID. */
  predicate Distinct(candidates: set<Candidate>) {
    && (forall a, b :: a in candidates && b in candidates && a.uid == b.uid ==> a == b)
    && (forall a, b :: a in candidates && b in candidates && a.namespace == b.namespace && a.name == b.name ==> a == b)
  }

  /** The order is strict and total on distinct resources. */
  lemma OrderIsTotal(candidates: set<Candidate>, a: Candidate, b: Candidate)
    requires Distinct(candidates) && a in candidates && b in candidates
    ensures Compare(a, b) == -Compare(b, a)
    ensures Compare(a, b) == 0 <==> a == b
  {
    StringAntisymmetric(a.namespace, b.namespace);
    StringAntisymmetric(a.name, b.name);
  }

  lemma OrderIsTransitive(a: Candidate, b: Candidate, c: Candidate)
    requires Compare(a, b) < 0 && Compare(b, c) < 0
    ensures Compare(a, c) < 0
  {
    StringAntisymmetric(a.namespace, b.namespace);
    StringAntisymmetric(b.namespace, c.namespace);
    if a.Recorded() == b.Recorded() == c.Recorded() && a.created == b.created == c.created {
      if CompareString(a.namespace, b.namespace) <= 0 && CompareString(b.namespace, c.namespace) <= 0 {
        StringTransitive(a.namespace, b.namespace, c.namespace);
      }
      if CompareString(a.name, b.name) <= 0 && CompareString(b.name, c.name) <= 0 {
        StringTransitive(a.name, b.name, c.name);
      }
      StringAntisymmetric(a.namespace, c.namespace);
    }
  }

  // ---------- who wins, without the comparison ----------

  /** The strings agree up to position n, and there the first one ends, or has the smaller character. */
  predicate SmallerAt(s: string, t: string, n: nat) {
    n <= |s| && n < |t| && s[..n] == t[..n] && (n == |s| || s[n] < t[n])
  }

  /** Lexicographically before: a proper prefix, or smaller where they first differ. */
  ghost predicate Smaller(s: string, t: string) {
    exists n: nat :: SmallerAt(s, t, n)
  }

  /** A recorded Application pk comes first, then the older one, then the smaller namespace, then the smaller name. */
  ghost predicate Beats(a: Candidate, b: Candidate) {
    || (a.applicationPk.Some? && b.applicationPk.None?)
    || (&& (a.applicationPk.Some? <==> b.applicationPk.Some?)
        && (|| a.created < b.created
            || (a.created == b.created && Smaller(a.namespace, b.namespace))
            || (a.created == b.created && a.namespace == b.namespace && Smaller(a.name, b.name))))
  }

  lemma {:induction false} CompareIsSmaller(s: string, t: string)
    ensures CompareString(s, t) < 0 <==> Smaller(s, t)
  {
    if s == [] || t == [] {
      assert t != [] ==> SmallerAt([], t, 0);
    } else if s[0] != t[0] {
      assert s[0] < t[0] ==> SmallerAt(s, t, 0);
      assert forall n: nat :: SmallerAt(s, t, n) ==> n == 0 || s[..n][0] == t[..n][0];
    } else {
      CompareIsSmaller(s[1..], t[1..]);
      if n: nat :| SmallerAt(s[1..], t[1..], n) {
        assert s[..n + 1] == [s[0]] + s[1..][..n] && t[..n + 1] == [t[0]] + t[1..][..n];
        assert SmallerAt(s, t, n + 1);
      }
      if n: nat :| SmallerAt(s, t, n) {
        assert n > 0 && s[1..][..n - 1] == s[..n][1..] && t[1..][..n - 1] == t[..n][1..];
        assert SmallerAt(s[1..], t[1..], n - 1);
      }
    }
  }

  /** The comparison orders candidates as told. */
  lemma CompareIsBeats(a: Candidate, b: Candidate)
    ensures Compare(a, b) < 0 <==> Beats(a, b)
  {
    CompareIsSmaller(a.namespace, b.namespace);
    CompareIsSmaller(a.name, b.name);
    StringAntisymmetric(a.namespace, b.namespace);
    StringAntisymmetric(a.name, b.name);
  }

  /** The winner beats every other candidate. */
  ghost predicate Wins(candidates: set<Candidate>, winner: Candidate) {
    winner in candidates && forall c :: c in candidates && c != winner ==> Beats(winner, c)
  }

  /** With a recorded candidate the winner is recorded; among those it is the oldest, and ties go by namespace and name. */
  lemma WinnerIsOldest(candidates: set<Candidate>, winner: Candidate)
    requires Distinct(candidates)
    ensures Wins(candidates, winner) <==>
              && winner in candidates
              && ((exists c :: c in candidates && c.applicationPk.Some?) ==> winner.applicationPk.Some?)
              && forall c :: c in candidates && c != winner && (c.applicationPk.Some? <==> winner.applicationPk.Some?) ==>
                   && winner.created <= c.created
                   && (winner.created == c.created ==>
                         || Smaller(winner.namespace, c.namespace)
                         || (winner.namespace == c.namespace && Smaller(winner.name, c.name)))
  {}

  /** There is at most one winner, so every resource agrees on it, in whatever order it lists the candidates. */
  lemma OneWinner(candidates: set<Candidate>, a: Candidate, b: Candidate)
    requires Distinct(candidates) && Wins(candidates, a) && Wins(candidates, b)
    ensures a == b
  {
    OrderIsTotal(candidates, a, b);
    CompareIsBeats(a, b);
    CompareIsBeats(b, a);
  }

  /** A resource that recorded an Application pk beats every one that did not, even an older one. */
  lemma RecordedBeatsNewcomer(candidates: set<Candidate>, owner: Candidate, newcomer: Candidate)
    requires owner in candidates && owner.Recorded() && !newcomer.Recorded()
    ensures !Wins(candidates, newcomer)
  {
    assert owner != newcomer && !Beats(newcomer, owner);
  }

  /** conflictWinner: the first minimum of the list. */
  method ConflictWinner(candidates: seq<Candidate>) returns (winner: Candidate)
    requires candidates != [] && Distinct(Elements(candidates))
    ensures Wins(Elements(candidates), winner)
  {
    winner := candidates[0];
    for i := 1 to |candidates|
      invariant winner in candidates
      invariant forall j :: 0 <= j < i && candidates[j] != winner ==> Compare(winner, candidates[j]) < 0
    {
      var c := candidates[i];
      assert c in Elements(candidates) && winner in Elements(candidates);
      OrderIsTotal(Elements(candidates), c, winner);
      if Compare(c, winner) < 0 {
        forall j | 0 <= j < i && candidates[j] != c ensures Compare(c, candidates[j]) < 0 {
          if candidates[j] != winner {
            OrderIsTransitive(c, winner, candidates[j]);
          }
        }
        winner := c;
      }
    }
    forall c | c in Elements(candidates) && c != winner ensures Beats(winner, c) {
      var j :| 0 <= j < |candidates| && candidates[j] == c;
      CompareIsBeats(winner, c);
    }
  }

  // ---------- the check, and runs of it ----------

  /** The live resources with a slug. */
  ghost function Live(resources: map<Uid, Candidate>, slug: string): set<Candidate> {
    set u | u in resources && resources[u].slug == slug && !resources[u].deleting :: resources[u]
  }

  /** Another live resource holds the record of the slug of a resource. */
  ghost predicate OwnedByOther(resources: map<Uid, Candidate>, u: Uid)
    requires u in resources
  {
    exists v :: v in resources && v != u && resources[v].slug == resources[u].slug && !resources[v].deleting
      && resources[v].Recorded()
  }

  /** The resources of a cluster. Reconciles are serialized, and their lists are up to date. */
  class Cluster {
    var resources: map<Uid, Candidate>

    ghost predicate Valid()
      reads this
    {
      && (forall u :: u in resources ==> resources[u].uid == u)
      && (forall u, v ::
            (u in resources && v in resources && resources[u].namespace == resources[v].namespace
             && resources[u].name == resources[v].name)
            ==> u == v)
      && OneRecorded(resources)
    }

    constructor ()
      ensures Valid() && resources == map[]
    {
      resources := map[];
    }

    /** The listed copy of the resource itself is replaced by the fetched one, and deleted resources do not count. */
    method CheckConflict(self: Candidate) returns (wins: bool)
      requires Valid() && self.uid in resources && resources[self.uid] == self && !self.deleting
      ensures wins <==> Wins(Live(resources, self.slug), self)
    {
      var candidates := [self];
      var rest := resources.Keys;
      while rest != {}
        invariant rest <= resources.Keys
        invariant Elements(candidates) ==
                  {self} + set u | u in resources && u !in rest && resources[u].slug == self.slug && !resources[u].deleting
                    && u != self.uid :: resources[u]
        invariant candidates != []
        decreases rest
      {
        var u :| u in rest;
        var other := resources[u];
        ghost var before := candidates;
        if other.slug == self.slug && other.uid != self.uid && !other.deleting {
          candidates := candidates + [other];
          assert Elements(candidates) == Elements(before) + {other};
        }
        rest := rest - {u};
      }
      assert Elements(candidates) == Live(resources, self.slug);
      var winner := ConflictWinner(candidates);
      if winner.uid == self.uid {
        assert winner == self;
        return true;
      }
      OneWinnerIff(Live(resources, self.slug), winner, self);
      return false;
    }

    /** Someone creates a resource, of any age as far as the order is concerned. */
    method Create(c: Candidate)
      requires Valid() && c.uid !in resources && !c.Recorded() && !c.deleting
      requires forall u :: u in resources ==> resources[u].namespace != c.namespace || resources[u].name != c.name
      modifies this
      ensures Valid() && resources == old(resources)[c.uid := c]
    {
      resources := resources[c.uid := c];
    }

    method StartDeletion(u: Uid)
      requires Valid() && u in resources
      modifies this
      ensures Valid() && resources == old(resources)[u := old(resources)[u].(deleting := true)]
    {
      resources := resources[u := resources[u].(deleting := true)];
    }

    method Disappear(u: Uid)
      requires Valid() && u in resources && resources[u].deleting
      modifies this
      ensures Valid() && resources == old(resources) - {u}
    {
      resources := resources - {u};
    }

    /** While another live resource holds the record of its slug, a resource does not win. */
    lemma OwnerStays(u: Uid)
      requires Valid() && u in resources && !resources[u].deleting
      ensures Wins(Live(resources, resources[u].slug), resources[u]) ==> !OwnedByOther(resources, u)
    {
      var self := resources[u];
      forall v | v in resources && v != u && resources[v].slug == self.slug && !resources[v].deleting && resources[v].Recorded()
        ensures !Wins(Live(resources, self.slug), self)
      {
        assert resources[v] in Live(resources, self.slug);
        if !self.Recorded() {
          RecordedBeatsNewcomer(Live(resources, self.slug), resources[v], self);
        }
      }
    }

    /** The winner of a slug records an Application pk, or drops the one of an Application that is gone. */
    method Record(u: Uid, applicationPk: Option<Key>)
      requires Valid() && u in resources && !resources[u].deleting
      requires applicationPk == resources[u].applicationPk || Wins(Live(resources, resources[u].slug), resources[u])
      modifies this
      ensures Valid() && resources == old(resources)[u := old(resources)[u].(applicationPk := applicationPk)]
    {
      OwnerStays(u);
      resources := resources[u := resources[u].(applicationPk := applicationPk)];
    }

    /** One reconcile of a live resource, whatever it records: only the winner of its slug gets to change its record. */
    method Reconcile(u: Uid) returns (wins: bool)
      requires Valid() && u in resources && !resources[u].deleting
      modifies this
      ensures Valid() && resources.Keys == old(resources.Keys)
      ensures wins <==> old(Wins(Live(resources, resources[u].slug), resources[u]))
      ensures resources == old(resources)[u := old(resources)[u].(applicationPk := resources[u].applicationPk)]
      ensures !wins ==> resources == old(resources)
      ensures old(OwnedByOther(resources, u)) ==> !wins
    {
      wins := CheckConflict(resources[u]);
      OwnerStays(u);
      if wins {
        var recorded: Option<Key> := *;
        Record(u, recorded);
      } else {
        assert resources == resources[u := resources[u].(applicationPk := resources[u].applicationPk)];
      }
    }

    /**
     Any number of steps in any order. As long as a resource is live and keeps its record, no reconcile of another
     resource of the slug wins, so that at most one live resource per slug holds a record at any time.
     */
    method Run(steps: nat) returns (ghost trace: seq<map<Uid, Candidate>>)
      requires Valid()
      modifies this
      ensures Valid()
      ensures |trace| > 0 && trace[0] == old(resources) && trace[|trace| - 1] == resources
      ensures forall k :: 0 <= k < |trace| ==> OneRecorded(trace[k])
      ensures forall k :: 0 < k < |trace| ==> NoDisplacement(trace[k - 1], trace[k])
    {
      trace := [resources];
      for step := 0 to steps
        invariant Valid() && |trace| > 0 && trace[0] == old(resources) && trace[|trace| - 1] == resources
        invariant forall k :: 0 <= k < |trace| ==> OneRecorded(trace[k])
        invariant forall k :: 0 < k < |trace| ==> NoDisplacement(trace[k - 1], trace[k])
      {
        var u: Uid := *;
        var deletes: bool := *;
        ghost var before := resources;
        if u in resources {
          if !resources[u].deleting && !deletes {
            var _ := Reconcile(u);
          } else if resources[u].deleting && deletes {
            Disappear(u);
          } else {
            StartDeletion(u);
          }
        } else {
          var c: Candidate := *;
          if c.uid == u && !c.Recorded() && !c.deleting && forall v :: v in resources ==>
             resources[v].namespace != c.namespace || resources[v].name != c.name {
            Create(c);
          }
        }
        assert NoDisplacement(before, resources);
        trace := trace + [resources];
      }
    }
  }

  lemma OneWinnerIff(candidates: set<Candidate>, winner: Candidate, other: Candidate)
    requires Distinct(candidates) && Wins(candidates, winner) && other in candidates && winner != other
    ensures !Wins(candidates, other)
  {
    OrderIsTotal(candidates, winner, other);
    CompareIsBeats(winner, other);
    CompareIsBeats(other, winner);
  }

  /** At most one live resource per slug has recorded an Application pk. */
  ghost predicate OneRecorded(resources: map<Uid, Candidate>) {
    forall u, v ::
      (&& u in resources && v in resources && resources[u].slug == resources[v].slug
       && !resources[u].deleting && !resources[v].deleting && resources[u].Recorded() && resources[v].Recorded()) ==> u == v
  }

  /** The live resource that holds the record of its slug wins it. */
  lemma OwnerWins(resources: map<Uid, Candidate>, u: Uid)
    requires OneRecorded(resources) && (forall v :: v in resources ==> resources[v].uid == v)
    requires u in resources && !resources[u].deleting && resources[u].Recorded()
    ensures Wins(Live(resources, resources[u].slug), resources[u])
  {
    forall c | c in Live(resources, resources[u].slug) && c != resources[u] ensures Beats(resources[u], c) {
      assert c.uid in resources && resources[c.uid] == c;
    }
  }

  /** While a live resource holds the record of its slug, no other resource of the slug gains one. */
  ghost predicate NoDisplacement(before: map<Uid, Candidate>, after: map<Uid, Candidate>) {
    forall u, v ::
      (&& u in before && !before[u].deleting && before[u].Recorded()
       && v in after && v != u && after[v].slug == before[u].slug && !after[v].deleting)
      ==> !after[v].Recorded()
  }

  /** Exactly one live resource of a slug passes the check. */
  lemma ExactlyOnePasses(candidates: set<Candidate>)
    requires Distinct(candidates) && candidates != {}
    ensures exists w :: Wins(candidates, w) && forall v :: Wins(candidates, v) ==> v == w
  {
    var w := Minimum(candidates);
    forall v | Wins(candidates, v) ensures v == w {
      OneWinner(candidates, v, w);
    }
  }

  lemma {:induction false} Minimum(candidates: set<Candidate>) returns (w: Candidate)
    requires Distinct(candidates) && candidates != {}
    ensures Wins(candidates, w)
  {
    var c :| c in candidates;
    var rest := candidates - {c};
    if rest == {} {
      assert candidates == {c};
      return c;
    }
    var m := Minimum(rest);
    OrderIsTotal(candidates, c, m);
    CompareIsBeats(c, m);
    CompareIsBeats(m, c);
    if Compare(c, m) < 0 {
      forall d | d in rest && d != m ensures Beats(c, d) {
        CompareIsBeats(m, d);
        OrderIsTransitive(c, m, d);
        CompareIsBeats(c, d);
      }
      return c;
    }
    return m;
  }
}
