/** Resolution of the references in a spec (internal/reference/resolver.go, internal/reference/error.go). */
module Resolver {
  import opened Base
  import opened Api
  import opened Patch
  import opened Matching
  import opened Desired

  datatype Kind = FlowKind | KeyPairKind | OutpostKind | ScopeMappingKind | GroupKind | PolicyKind

  /** What references can point to: objects with a name-like key, Users, and the Secret of the resource. */
  datatype Directory = Directory(objects: map<Kind, map<Key, string>>, users: map<int, string>, secret: Option<map<string, string>>)
  {
    predicate Valid() {
      && (forall k, pk :: k in objects && pk in objects[k] ==> pk != EMPTY)
      && (forall pk :: pk in users ==> 1 <= pk <= MAX_INT32)
    }

    function Of(kind: Kind): map<Key, string> {
      if kind in objects then objects[kind] else map[]
    }
  }

  datatype Path =
    | AuthorizationPath | InvalidationPath | AuthenticationPath
    | CertificatePath | OutpostPath
    | ScopePath(index: nat) | SigningKeyPath | EncryptionKeyPath | ClientIdKeyPath | ClientSecretKeyPath
    | RuleGroupPath(index: nat) | RuleUserPath(index: nat) | RulePolicyPath(index: nat)

  datatype Failure = Failure(path: Path, matches: nat)
  {
    predicate Ambiguous() {
      matches > 1
    }
  }

  // ---------- which references there are, and what they match ----------

  datatype Lookup =
    | ObjectLookup(path: Path, kind: Kind, ref: Reference)
    | UserLookup(path: Path, user: UserReference)
    | KeyLookup(path: Path, key: string)

  function ObjectMatches(dir: Directory, kind: Kind, ref: Reference): set<Key> {
    match ref
    case ByUuid(uuid) => set k | k in dir.Of(kind) && k == uuid
    case ByName(name) => set k | k in dir.Of(kind) && dir.Of(kind)[k] == name
  }

  function UserMatches(dir: Directory, ref: UserReference): set<int> {
    match ref
    case ByPk(pk) => set u | u in dir.users && u == pk
    case ByUsername(username) => set u | u in dir.users && dir.users[u] == username
  }

  function Matches(dir: Directory, lookup: Lookup): nat {
    match lookup
    case ObjectLookup(_, kind, ref) => |ObjectMatches(dir, kind, ref)|
    case UserLookup(_, user) => |UserMatches(dir, user)|
    case KeyLookup(_, key) => if dir.secret.Some? && key in dir.secret.value then 1 else 0
  }

  function FlowLookups(flows: FlowsSpec): seq<Lookup> {
    [ObjectLookup(AuthorizationPath, FlowKind, flows.authorization), ObjectLookup(InvalidationPath, FlowKind, flows.invalidation)]
    + if flows.authentication.Some? then [ObjectLookup(AuthenticationPath, FlowKind, flows.authentication.value)] else []
  }

  function NamedLookup(path: Path, kind: Kind, ref: Option<Reference>): seq<Lookup> {
    if ref.Some? then [ObjectLookup(path, kind, ref.value)] else []
  }

  function ScopeLookups(scopes: seq<Reference>): seq<Lookup> {
    seq(|scopes|, i requires 0 <= i < |scopes| => ObjectLookup(ScopePath(i), ScopeMappingKind, scopes[i]))
  }

  /** A missing Secret is not a failure, because the operator creates it; a missing key in it is. */
  function CredentialLookups(dir: Directory, spec: CredentialsSpec): seq<Lookup> {
    if dir.secret.None? then []
    else
      (if spec.clientId.None? then [KeyLookup(ClientIdKeyPath, ClientIdKey(spec))] else [])
      + [KeyLookup(ClientSecretKeyPath, ClientSecretKey(spec))]
  }

  function KindLookups(dir: Directory, kind: ProviderKindSpec): seq<Lookup> {
    if kind.ProxySpec? then
      NamedLookup(CertificatePath, KeyPairKind,
                  kind.certificate) + [ObjectLookup(OutpostPath, OutpostKind, OutpostReference(kind.outpost))]
    else
      (if kind.scopes.Some? then ScopeLookups(kind.scopes.value) else [])
      + NamedLookup(SigningKeyPath, KeyPairKind, kind.signingKey) + NamedLookup(EncryptionKeyPath, KeyPairKind, kind.encryptionKey)
      + (if kind.credentials.Some? then CredentialLookups(dir, kind.credentials.value) else [])
  }

  function RuleLookup(index: nat, rule: RuleSpec): Lookup {
    match rule.subject
    case GroupRule(group) => ObjectLookup(RuleGroupPath(index), GroupKind, group)
    case UserRule(user) => UserLookup(RuleUserPath(index), user)
    case PolicyRule(policy) => ObjectLookup(RulePolicyPath(index), PolicyKind, policy)
  }

  function RuleLookups(rules: seq<RuleSpec>): seq<Lookup> {
    seq(|rules|, i requires 0 <= i < |rules| => RuleLookup(i, rules[i]))
  }

  /** Every reference of the spec, in the order in which they are looked up. */
  function Lookups(dir: Directory, spec: Spec): seq<Lookup> {
    (if spec.provider.Some? then FlowLookups(spec.provider.value.flows) + KindLookups(dir, spec.provider.value.kind) else [])
    + RuleLookups(spec.rules)
  }

  /** The references that do not match exactly one object, in order, with their match counts. */
  function Failures(dir: Directory, lookups: seq<Lookup>): seq<Failure> {
    if lookups == [] then []
    else
      (if Matches(dir, lookups[0]) == 1 then [] else [Failure(lookups[0].path, Matches(dir, lookups[0]))])
      + Failures(dir, lookups[1..])
  }

  lemma {:induction false} FailuresAppend(dir: Directory, a: seq<Lookup>, b: seq<Lookup>)
    ensures Failures(dir, a + b) == Failures(dir, a) + Failures(dir, b)
  {
    if a == [] {
      assert a + b == b;
    } else {
      assert (a + b)[1..] == a[1..] + b;
      FailuresAppend(dir, a[1..], b);
    }
  }

  lemma FailuresOne(dir: Directory, looked: seq<Lookup>, lookup: Lookup)
    ensures Failures(dir, looked + [lookup]) ==
            Failures(dir, looked) + if Matches(dir, lookup) == 1 then [] else [Failure(lookup.path, Matches(dir, lookup))]
  {
    FailuresAppend(dir, looked, [lookup]);
    assert [lookup][1..] == [];
  }

  /** No failure is listed exactly when every reference matches one object. */
  lemma {:induction false} NoFailures(dir: Directory, lookups: seq<Lookup>)
    ensures Failures(dir, lookups) == [] <==> forall l :: l in lookups ==> Matches(dir, l) == 1
  {
    if lookups != [] {
      NoFailures(dir, lookups[1..]);
      assert lookups == [lookups[0]] + lookups[1..];
    }
  }

  // ---------- one lookup ----------

  class Collector {
    var failures: seq<Failure>
    ghost var looked: seq<Lookup>
    ghost const dir: Directory

    constructor (ghost dir: Directory)
      ensures failures == [] && looked == [] && this.dir == dir && Faithful()
    {
      failures := [];
      looked := [];
      this.dir := dir;
    }

    /** The collected failures are those of the lookups so far. */
    ghost predicate Faithful()
      reads this
    {
      failures == Failures(dir, looked)
    }

    method Add(path: Path, matches: nat)
      modifies this`failures
      ensures failures == old(failures) + [Failure(path, matches)]
    {
      failures := failures + [Failure(path, matches)];
    }

    ghost method Look(lookup: Lookup)
      modifies this`looked
      ensures looked == old(looked) + [lookup]
    {
      looked := looked + [lookup];
    }
  }

  /** A search returns every object with the key. */
  method Find(dir: Directory, kind: Kind, name: string) returns (res: Result<seq<Key>>)
    ensures res.Ok? ==>
              && Elements(res.value) == ObjectMatches(dir, kind, ByName(name))
              && |res.value| == |ObjectMatches(dir, kind, ByName(name))|
    ensures res.Err? ==> res.error == Unavailable
  {
    if * { return Err(Unavailable); }
    var found: seq<Key> := [];
    var rest := dir.Of(kind).Keys;
    while rest != {}
      invariant rest <= dir.Of(kind).Keys
      invariant Elements(found) == set k | k in dir.Of(kind) && k !in rest && dir.Of(kind)[k] == name
      invariant |found| == |Elements(found)|
      decreases rest
    {
      var k :| k in rest;
      ghost var before := found;
      if dir.Of(kind)[k] == name {
        found := found + [k];
        assert Elements(found) == Elements(before) + {k};
      }
      rest := rest - {k};
    }
    return Ok(found);
  }

  method AnyOf<T>(s: set<T>) returns (x: T)
    requires s != {}
    ensures x in s
  {
    x :| x in s;
  }

  method FindUsers(dir: Directory, username: string) returns (res: Result<seq<int>>)
    ensures res.Ok? ==>
              && Elements(res.value) == UserMatches(dir, ByUsername(username))
              && |res.value| == |UserMatches(dir, ByUsername(username))|
    ensures res.Err? ==> res.error == Unavailable
  {
    if * { return Err(Unavailable); }
    var found: seq<int> := [];
    var rest := dir.users.Keys;
    while rest != {}
      invariant rest <= dir.users.Keys
      invariant Elements(found) == set u | u in dir.users && u !in rest && dir.users[u] == username
      invariant |found| == |Elements(found)|
      decreases rest
    {
      var u := AnyOf(rest);
      ghost var before := found;
      if dir.users[u] == username {
        found := found + [u];
        assert Elements(found) == Elements(before) + {u};
      }
      rest := rest - {u};
    }
    return Ok(found);
  }

  /** The API takes a 32-bit User pk. */
  method GetUser(dir: Directory, pk: int) returns (res: Result<int>)
    requires -0x8000_0000 <= pk <= MAX_INT32
    ensures res.Ok? ==> pk in dir.users && res.value == pk
    ensures res.Err? ==> res.error == Unavailable || (res.error == NotFound && pk !in dir.users)
  {
    if * { return Err(Unavailable); }
    return if pk in dir.users then Ok(pk) else Err(NotFound);
  }

  /** resolveByString: by UUID or by the name-like key; a failure is collected and yields the empty key. */
  method ResolveByString(c: Collector, dir: Directory, path: Path, kind: Kind, ref: Reference) returns (res: Result<Key>)
    requires c.dir == dir && c.Faithful()
    modifies c
    ensures res.Ok? ==> c.Faithful() && c.looked == old(c.looked) + [ObjectLookup(path, kind, ref)]
    ensures res.Ok? ==>
              if Matches(dir, ObjectLookup(path, kind, ref)) == 1 then ObjectMatches(dir, kind, ref) == {res.value}
                 && c.failures == old(c.failures)
              else res.value == EMPTY && |c.failures| == |old(c.failures)| + 1
    ensures res.Err? ==> res.error == Unavailable
  {
    var lookup := ObjectLookup(path, kind, ref);
    FailuresOne(dir, c.looked, lookup);
    match ref
    case ByUuid(uuid) =>
      if * { return Err(Unavailable); }
      c.Look(lookup);
      if uuid !in dir.Of(kind) {
        assert ObjectMatches(dir, kind, ref) == {};
        c.Add(path, 0);
        return Ok(EMPTY);
      }
      assert ObjectMatches(dir, kind, ref) == {uuid};
      return Ok(uuid);
    case ByName(name) =>
      var found := Find(dir, kind, name);
      if found.Err? { return Err(found.error); }
      c.Look(lookup);
      if |found.value| != 1 {
        c.Add(path, |found.value|);
        return Ok(EMPTY);
      }
      assert found.value == [found.value[0]];
      assert Elements(found.value) == {found.value[0]};
      return Ok(found.value[0]);
  }

  /** resolveNamed: an optional reference; it is nil when it is omitted or cannot be resolved. */
  method ResolveNamed(c: Collector, dir: Directory, path: Path, kind: Kind, ref: Option<Reference>)
    returns (res: Result<Option<Key>>)
    requires c.dir == dir && c.Faithful()
    modifies c
    ensures res.Ok? ==> c.Faithful() && c.looked == old(c.looked) + NamedLookup(path, kind, ref)
    ensures res.Ok? && ref.Some? ==>
              if Matches(dir, ObjectLookup(path, kind, ref.value)) == 1 then res.value.Some?
                 && ObjectMatches(dir, kind, ref.value) == {res.value.value}
              else res.value.None?
    ensures res.Ok? && ref.None? ==> res.value.None?
    ensures res.Err? ==> res.error == Unavailable
  {
    if ref.None? {
      return Ok(None);
    }
    var failures := |c.failures|;
    var pk := ResolveByString(c, dir, path, kind, ref.value);
    if pk.Err? {
      return Err(pk.error);
    }
    if |c.failures| > failures {
      return Ok(None);
    }
    return Ok(Some(pk.value));
  }

  /** resolveUser: a pk that authentik cannot store is not found, and never converted to 32 bits. */
  method ResolveUser(c: Collector, dir: Directory, path: Path, ref: UserReference) returns (res: Result<Option<int>>)
    requires c.dir == dir && dir.Valid() && c.Faithful()
    modifies c
    ensures res.Ok? ==> c.Faithful() && c.looked == old(c.looked) + [UserLookup(path, ref)]
    ensures res.Ok? ==>
              if Matches(dir, UserLookup(path, ref)) == 1 then res.value.Some? && UserMatches(dir, ref) == {res.value.value}
              else res.value.None?
    ensures res.Err? ==> res.error == Unavailable
  {
    var lookup := UserLookup(path, ref);
    FailuresOne(dir, c.looked, lookup);
    match ref
    case ByPk(pk) =>
      if pk < 1 || pk > MAX_INT32 {
        assert UserMatches(dir, ref) == {};
        c.Look(lookup);
        c.Add(path, 0);
        return Ok(None);
      }
      var user := GetUser(dir, Int32(pk));
      if user.Ok? {
        assert UserMatches(dir, ref) == {pk};
        c.Look(lookup);
        return Ok(Some(user.value));
      } else if user.error != NotFound {
        return Err(user.error);
      }
      assert UserMatches(dir, ref) == {};
      c.Look(lookup);
      c.Add(path, 0);
      return Ok(None);
    case ByUsername(username) =>
      var found := FindUsers(dir, username);
      if found.Err? { return Err(found.error); }
      c.Look(lookup);
      if |found.value| != 1 {
        c.Add(path, |found.value|);
        return Ok(None);
      }
      assert found.value == [found.value[0]];
      assert Elements(found.value) == {found.value[0]};
      return Ok(Some(found.value[0]));
  }

  // ---------- the references of a spec ----------

  /** The reference matches the one object with the key. */
  predicate Identifies(dir: Directory, kind: Kind, ref: Reference, pk: Key) {
    ObjectMatches(dir, kind, ref) == {pk}
  }

  /** A reference by UUID identifies the object with it, and one by name the only object of the kind that has the name. */
  lemma IdentifiedBy(dir: Directory, kind: Kind, ref: Reference, pk: Key)
    ensures Identifies(dir, kind, ref, pk) <==>
              && kind in dir.objects && pk in dir.objects[kind]
              && match ref
                 case ByUuid(uuid) => pk == uuid
                 case ByName(name) => forall k :: k in dir.objects[kind] ==> (dir.objects[kind][k] == name <==> k == pk)
  {
    assert Identifies(dir, kind, ref, pk) ==> pk in ObjectMatches(dir, kind, ref);
    if ref.ByName? && kind in dir.objects && Identifies(dir, kind, ref, pk) {
      forall k | k in dir.objects[kind] ensures dir.objects[kind][k] == ref.name <==> k == pk {
        assert k in ObjectMatches(dir, kind, ref) <==> dir.objects[kind][k] == ref.name;
      }
    }
  }

  lemma UserIdentifiedBy(dir: Directory, ref: UserReference, pk: int)
    ensures UserMatches(dir, ref) == {pk} <==>
              && pk in dir.users
              && match ref
                 case ByPk(asked) => pk == asked
                 case ByUsername(username) => forall u :: u in dir.users ==> (dir.users[u] == username <==> u == pk)
  {
    var found := UserMatches(dir, ref);
    match ref
    case ByPk(asked) =>
      assert found == if asked in dir.users then {asked} else {};
      assert pk in found <==> pk in dir.users && pk == asked;
    case ByUsername(username) =>
      assert forall u :: u in found <==> u in dir.users && dir.users[u] == username;
      if pk in dir.users && forall u :: u in dir.users ==> (dir.users[u] == username <==> u == pk) {
        assert found == {pk};
      } else {
        assert found == {pk} ==> pk in found;
      }
  }

  /** A reference is no failure if and only if it identifies an object. */
  lemma OneMatch(dir: Directory, path: Path, kind: Kind, ref: Reference)
    ensures Matches(dir, ObjectLookup(path, kind, ref)) == 1 <==> exists pk :: Identifies(dir, kind, ref, pk)
  {
    var all := ObjectMatches(dir, kind, ref);
    if |all| == 1 {
      var pk :| pk in all;
      SubsetOfEqualSize({pk}, all);
      assert Identifies(dir, kind, ref, pk);
    }
  }

  predicate IdentifiesOptional(dir: Directory, kind: Kind, ref: Option<Reference>, pk: Option<Key>) {
    (ref.Some? <==> pk.Some?) && (ref.Some? ==> Identifies(dir, kind, ref.value, pk.value))
  }

  predicate FlowsResolved(dir: Directory, spec: FlowsSpec, flows: Flows) {
    && Identifies(dir, FlowKind, spec.authorization, flows.authorization)
    && Identifies(dir, FlowKind, spec.invalidation, flows.invalidation)
    && IdentifiesOptional(dir, FlowKind, spec.authentication, flows.authentication)
  }

  predicate ProxyResolved(dir: Directory, spec: ProviderKindSpec, refs: ProxyReferences)
    requires spec.ProxySpec?
  {
    && IdentifiesOptional(dir, KeyPairKind, spec.certificate, refs.certificate)
    && Identifies(dir, OutpostKind, OutpostReference(spec.outpost), refs.outpost)
  }

  predicate CredentialsResolved(dir: Directory, spec: CredentialsSpec, credentials: Credentials) {
    ReadCredentials(spec, dir.secret) == Some(credentials)
  }

  predicate OAuth2Resolved(dir: Directory, spec: ProviderKindSpec, refs: OAuth2References)
    requires spec.OAuth2Spec?
  {
    && (spec.scopes.Some? <==> refs.scopes.Some?)
    && (spec.scopes.Some? ==>
          && |refs.scopes.value| == |spec.scopes.value|
          && forall i :: 0 <= i < |refs.scopes.value| ==>
            Identifies(dir, ScopeMappingKind, spec.scopes.value[i], refs.scopes.value[i]))
    && IdentifiesOptional(dir, KeyPairKind, spec.signingKey, refs.signingKey)
    && IdentifiesOptional(dir, KeyPairKind, spec.encryptionKey, refs.encryptionKey)
    && (spec.credentials.Some? <==> refs.credentials.Some?)
    && (spec.credentials.Some? ==> CredentialsResolved(dir, spec.credentials.value, refs.credentials.value))
  }

  predicate RuleResolved(dir: Directory, spec: RuleSpec, rule: Rule) {
    && rule.negate == (spec.negate == Some(true))
    && match spec.subject
       case GroupRule(group) =>
         && rule.group.Some? && rule.user.None? && rule.policy.None?
         && Identifies(dir, GroupKind, group, rule.group.value)
       case UserRule(user) =>
         && rule.group.None? && rule.user.Some? && rule.policy.None?
         && UserMatches(dir, user) == {rule.user.value}
       case PolicyRule(policy) =>
         && rule.group.None? && rule.user.None? && rule.policy.Some?
         && Identifies(dir, PolicyKind, policy, rule.policy.value)
  }

  predicate AllFound(dir: Directory, lookups: seq<Lookup>) {
    Failures(dir, lookups) == []
  }

  /** The lookups made since start. */
  ghost predicate Looked(c: Collector, start: seq<Lookup>, lookups: seq<Lookup>)
    reads c
  {
    c.Faithful() && c.looked == start + lookups
  }

  method ResolveFlows(c: Collector, dir: Directory, spec: FlowsSpec) returns (res: Result<Flows>)
    requires c.dir == dir && c.Faithful()
    modifies c
    ensures res.Ok? ==>
              && Looked(c, old(c.looked), FlowLookups(spec))
              && (AllFound(dir, FlowLookups(spec)) ==> FlowsResolved(dir, spec, res.value))
    ensures res.Err? ==> res.error == Unavailable
  {
    hide Failures, ObjectMatches;
    ghost var start := c.looked;
    ghost var a, i := ObjectLookup(AuthorizationPath, FlowKind, spec.authorization),
              ObjectLookup(InvalidationPath, FlowKind, spec.invalidation);
    NoFailures(dir, FlowLookups(spec));
    assert a == FlowLookups(spec)[0] && i == FlowLookups(spec)[1];
    var authorization := ResolveByString(c, dir, AuthorizationPath, FlowKind, spec.authorization);
    if authorization.Err? { return Err(authorization.error); }
    var invalidation := ResolveByString(c, dir, InvalidationPath, FlowKind, spec.invalidation);
    if invalidation.Err? { return Err(invalidation.error); }
    assert c.looked == start + [a, i];
    var authentication: Option<Key> := None;
    if spec.authentication.Some? {
      ghost var t := ObjectLookup(AuthenticationPath, FlowKind, spec.authentication.value);
      assert t == FlowLookups(spec)[2];
      var pk := ResolveByString(c, dir, AuthenticationPath, FlowKind, spec.authentication.value);
      if pk.Err? { return Err(pk.error); }
      assert c.looked == start + FlowLookups(spec);
      authentication := Some(pk.value);
    }
    return Ok(Flows(authorization.value, invalidation.value, authentication));
  }

  method ResolveProxy(c: Collector, dir: Directory, spec: ProviderKindSpec) returns (res: Result<ProxyReferences>)
    requires c.dir == dir && c.Faithful() && spec.ProxySpec?
    modifies c
    ensures res.Ok? ==>
              && Looked(c, old(c.looked), KindLookups(dir, spec))
              && (AllFound(dir, KindLookups(dir, spec)) ==> ProxyResolved(dir, spec, res.value))
    ensures res.Err? ==> res.error == Unavailable
  {
    hide Failures, ObjectMatches;
    ghost var start, all := c.looked, KindLookups(dir, spec);
    NoFailures(dir, all);
    assert spec.certificate.Some? ==> all[0] == ObjectLookup(CertificatePath, KeyPairKind, spec.certificate.value);
    assert all[|all| - 1] == ObjectLookup(OutpostPath, OutpostKind, OutpostReference(spec.outpost));
    var certificate := ResolveNamed(c, dir, CertificatePath, KeyPairKind, spec.certificate);
    if certificate.Err? { return Err(certificate.error); }
    var outpost := ResolveByString(c, dir, OutpostPath, OutpostKind, OutpostReference(spec.outpost));
    if outpost.Err? { return Err(outpost.error); }
    assert c.looked == start + all;
    return Ok(ProxyReferences(certificate.value, outpost.value));
  }

  method ResolveScopes(c: Collector, dir: Directory, scopes: seq<Reference>) returns (res: Result<seq<Key>>)
    requires c.dir == dir && c.Faithful()
    modifies c
    ensures res.Ok? ==>
              && Looked(c, old(c.looked), ScopeLookups(scopes)) && |res.value| == |scopes|
              && forall i :: 0 <= i < |scopes| && Matches(dir, ScopeLookups(scopes)[i]) == 1 ==>
                   Identifies(dir, ScopeMappingKind, scopes[i], res.value[i])
    ensures res.Err? ==> res.error == Unavailable
  {
    hide Failures, ObjectMatches;
    ghost var start := c.looked;
    var resolved: seq<Key> := [];
    for i := 0 to |scopes|
      invariant Looked(c, start, ScopeLookups(scopes)[..i]) && |resolved| == i
      invariant forall j :: 0 <= j < i && Matches(dir, ScopeLookups(scopes)[j]) == 1 ==>
                  Identifies(dir, ScopeMappingKind, scopes[j], resolved[j])
    {
      var pk := ResolveByString(c, dir, ScopePath(i), ScopeMappingKind, scopes[i]);
      if pk.Err? { return Err(pk.error); }
      assert ScopeLookups(scopes)[..i + 1] == ScopeLookups(scopes)[..i] + [ScopeLookups(scopes)[i]];
      resolved := resolved + [pk.value];
    }
    assert ScopeLookups(scopes)[..|scopes|] == ScopeLookups(scopes);
    return Ok(resolved);
  }

  /** Reads a key of the Secret; a missing one is collected and yields the empty string. */
  method ReadKey(c: Collector, dir: Directory, path: Path, key: string) returns (value: string)
    requires c.dir == dir && c.Faithful() && dir.secret.Some?
    modifies c
    ensures Looked(c, old(c.looked), [KeyLookup(path, key)])
    ensures if key in dir.secret.value then value == dir.secret.value[key] else value == ""
  {
    FailuresOne(dir, c.looked, KeyLookup(path, key));
    c.Look(KeyLookup(path, key));
    if key !in dir.secret.value {
      c.Add(path, 0);
      return "";
    }
    return dir.secret.value[key];
  }

  method ResolveCredentials(c: Collector, dir: Directory, spec: CredentialsSpec) returns (res: Result<Credentials>)
    requires c.dir == dir && c.Faithful()
    modifies c
    ensures res.Ok? ==>
              && Looked(c, old(c.looked), CredentialLookups(dir, spec))
              && (AllFound(dir, CredentialLookups(dir, spec)) ==> CredentialsResolved(dir, spec, res.value))
    ensures res.Err? ==> res.error == Unavailable
  {
    hide Failures;
    ghost var start, all := c.looked, CredentialLookups(dir, spec);
    NoFailures(dir, all);
    if * { return Err(Unavailable); }
    if dir.secret.None? {
      return Ok(Credentials(false, PatchValue(spec.clientId, ""), ""));
    }
    assert spec.clientId.None? ==> all[0] == KeyLookup(ClientIdKeyPath, ClientIdKey(spec)) && all[0] in all;
    assert all[|all| - 1] == KeyLookup(ClientSecretKeyPath, ClientSecretKey(spec)) && all[|all| - 1] in all;
    assert Matches(dir, KeyLookup(ClientSecretKeyPath, ClientSecretKey(spec))) == 1 <==> ClientSecretKey(spec) in dir.secret.value;
    assert Matches(dir, KeyLookup(ClientIdKeyPath, ClientIdKey(spec))) == 1 <==> ClientIdKey(spec) in dir.secret.value;
    var clientId;
    if spec.clientId.Some? {
      clientId := spec.clientId.value;
    } else {
      clientId := ReadKey(c, dir, ClientIdKeyPath, ClientIdKey(spec));
    }
    var clientSecret := ReadKey(c, dir, ClientSecretKeyPath, ClientSecretKey(spec));
    assert c.looked == start + all;
    return Ok(Credentials(true, clientId, clientSecret));
  }

  method ResolveOAuth2(c: Collector, dir: Directory, spec: ProviderKindSpec) returns (res: Result<OAuth2References>)
    requires c.dir == dir && c.Faithful() && spec.OAuth2Spec?
    modifies c
    ensures res.Ok? ==>
              && Looked(c, old(c.looked), KindLookups(dir, spec))
              && (AllFound(dir, KindLookups(dir, spec)) ==> OAuth2Resolved(dir, spec, res.value))
    ensures res.Err? ==> res.error == Unavailable
  {
    hide Failures, ObjectMatches, Matches, CredentialsResolved, CredentialLookups, ScopeLookups, NamedLookup;
    ghost var start := c.looked;
    ghost var a := if spec.scopes.Some? then ScopeLookups(spec.scopes.value) else [];
    ghost var b := NamedLookup(SigningKeyPath, KeyPairKind, spec.signingKey);
    ghost var e := NamedLookup(EncryptionKeyPath, KeyPairKind, spec.encryptionKey);
    ghost var d := if spec.credentials.Some? then CredentialLookups(dir, spec.credentials.value) else [];
    assert KindLookups(dir, spec) == a + b + e + d;
    FourParts(dir, a, b, e, d);
    var scopes: Option<seq<Key>> := None;
    if spec.scopes.Some? {
      var pks := ResolveScopes(c, dir, spec.scopes.value);
      if pks.Err? { return Err(pks.error); }
      scopes := Some(pks.value);
      NoFailures(dir, a);
      ScopeElements(spec.scopes.value);
    }
    assert c.looked == start + a;
    var signingKey := ResolveNamed(c, dir, SigningKeyPath, KeyPairKind, spec.signingKey);
    if signingKey.Err? { return Err(signingKey.error); }
    NamedFound(dir, SigningKeyPath, KeyPairKind, spec.signingKey);
    assert c.looked == start + (a + b);
    var encryptionKey := ResolveNamed(c, dir, EncryptionKeyPath, KeyPairKind, spec.encryptionKey);
    if encryptionKey.Err? { return Err(encryptionKey.error); }
    NamedFound(dir, EncryptionKeyPath, KeyPairKind, spec.encryptionKey);
    assert c.looked == start + (a + b + e);
    var credentials: Option<Credentials> := None;
    if spec.credentials.Some? {
      var read := ResolveCredentials(c, dir, spec.credentials.value);
      if read.Err? { return Err(read.error); }
      credentials := Some(read.value);
    }
    assert c.looked == start + (a + b + e + d);
    return Ok(OAuth2References(scopes, signingKey.value, encryptionKey.value, credentials));
  }

  lemma FourParts(dir: Directory, a: seq<Lookup>, b: seq<Lookup>, c: seq<Lookup>, d: seq<Lookup>)
    ensures AllFound(dir, a + b + c + d) <==> AllFound(dir, a) && AllFound(dir, b) && AllFound(dir, c) && AllFound(dir, d)
  {
    FailuresAppend(dir, a + b + c, d);
    FailuresAppend(dir, a + b, c);
    FailuresAppend(dir, a, b);
  }

  lemma ScopeElements(scopes: seq<Reference>)
    ensures forall i :: 0 <= i < |scopes| ==> ScopeLookups(scopes)[i] in ScopeLookups(scopes)
  {}

  lemma NamedFound(dir: Directory, path: Path, kind: Kind, ref: Option<Reference>)
    ensures AllFound(dir, NamedLookup(path, kind, ref)) && ref.Some? ==> Matches(dir, ObjectLookup(path, kind, ref.value)) == 1
  {
    if ref.Some? {
      NoFailures(dir, NamedLookup(path, kind, ref));
      assert NamedLookup(path, kind, ref)[0] == ObjectLookup(path, kind, ref.value);
    }
  }

  method ResolveRule(c: Collector, dir: Directory, index: nat, spec: RuleSpec) returns (res: Result<Rule>)
    requires c.dir == dir && dir.Valid() && c.Faithful()
    modifies c
    ensures res.Ok? ==>
              && Looked(c, old(c.looked), [RuleLookup(index, spec)])
              && (Matches(dir, RuleLookup(index, spec)) == 1 ==> RuleResolved(dir, spec, res.value))
    ensures res.Err? ==> res.error == Unavailable
  {
    hide Failures, ObjectMatches, UserMatches;
    var negate := spec.negate == Some(true);
    match spec.subject
    case GroupRule(group) =>
      var pk := ResolveNamed(c, dir, RuleGroupPath(index), GroupKind, Some(group));
      if pk.Err? { return Err(pk.error); }
      return Ok(Rule(pk.value, None, None, negate));
    case UserRule(user) =>
      var pk := ResolveUser(c, dir, RuleUserPath(index), user);
      if pk.Err? { return Err(pk.error); }
      return Ok(Rule(None, pk.value, None, negate));
    case PolicyRule(policy) =>
      var pk := ResolveNamed(c, dir, RulePolicyPath(index), PolicyKind, Some(policy));
      if pk.Err? { return Err(pk.error); }
      return Ok(Rule(None, None, pk.value, negate));
  }

  datatype Resolution = Resolution(flows: Option<Flows>, proxy: Option<ProxyReferences>, oauth2: Option<OAuth2References>,
                                   rules: seq<Rule>)

  datatype ResolveResult =
    | Resolved(resolution: Resolution)
    | Unresolved(failures: seq<Failure>)
    | LookupFailed(error: Error)

  /** Every reference of the spec is resolved to the one object that it matches. */
  predicate SpecResolved(dir: Directory, spec: Spec, r: Resolution) {
    && (r.flows.Some? <==> spec.provider.Some?)
    && (r.proxy.Some? <==> spec.provider.Some? && spec.provider.value.kind.ProxySpec?)
    && (r.oauth2.Some? <==> spec.provider.Some? && spec.provider.value.kind.OAuth2Spec?)
    && (r.flows.Some? ==> FlowsResolved(dir, spec.provider.value.flows, r.flows.value))
    && (r.proxy.Some? ==> ProxyResolved(dir, spec.provider.value.kind, r.proxy.value))
    && (r.oauth2.Some? ==> OAuth2Resolved(dir, spec.provider.value.kind, r.oauth2.value))
    && |r.rules| == |spec.rules|
    && (forall i :: 0 <= i < |r.rules| ==> RuleResolved(dir, spec.rules[i], r.rules[i]))
  }

  /** Resolved rules have one subject with an identifier that exists. */
  lemma ResolvedRuleIsValid(dir: Directory, spec: RuleSpec, rule: Rule)
    requires dir.Valid() && RuleResolved(dir, spec, rule)
    ensures ValidRule(rule)
  {
    match spec.subject
    case GroupRule(group) => assert rule.group.value in ObjectMatches(dir, GroupKind, group);
    case UserRule(user) =>
    case PolicyRule(policy) => assert rule.policy.value in ObjectMatches(dir, PolicyKind, policy);
  }

  method ResolveRules(c: Collector, dir: Directory, specs: seq<RuleSpec>) returns (res: Result<seq<Rule>>)
    requires c.dir == dir && dir.Valid() && c.Faithful()
    modifies c
    ensures res.Ok? ==>
              && Looked(c, old(c.looked), RuleLookups(specs)) && |res.value| == |specs|
              && forall i :: 0 <= i < |specs| && Matches(dir, RuleLookups(specs)[i]) == 1 ==>
                RuleResolved(dir, specs[i], res.value[i])
    ensures res.Err? ==> res.error == Unavailable
  {
    hide Failures, RuleResolved, RuleLookup, Matches;
    ghost var start := c.looked;
    var rules: seq<Rule> := [];
    for i := 0 to |specs|
      invariant Looked(c, start, RuleLookups(specs)[..i]) && |rules| == i
      invariant forall j :: 0 <= j < i && Matches(dir, RuleLookups(specs)[j]) == 1 ==> RuleResolved(dir, specs[j], rules[j])
    {
      var rule := ResolveRule(c, dir, i, specs[i]);
      if rule.Err? { return Err(rule.error); }
      assert RuleLookups(specs)[..i + 1] == RuleLookups(specs)[..i] + [RuleLookups(specs)[i]];
      rules := rules + [rule.value];
    }
    assert RuleLookups(specs)[..|specs|] == RuleLookups(specs);
    return Ok(rules);
  }

  /**
   Resolve: all or nothing. Unless a lookup itself fails, the references are resolved exactly when every one of them
   matches one object, and otherwise every one that does not is listed, in order, with its number of matches.
   */
  method Resolve(dir: Directory, spec: Spec) returns (res: ResolveResult)
    requires dir.Valid()
    ensures res.Resolved? ==> SpecResolved(dir, spec, res.resolution) && ValidRules(res.resolution.rules)
    ensures res.Resolved? ==> forall l :: l in Lookups(dir, spec) ==> Matches(dir, l) == 1
    ensures res.Unresolved? ==> res.failures == Failures(dir, Lookups(dir, spec)) && res.failures != []
    ensures res.LookupFailed? ==> res.error == Unavailable
  {
    hide Failures, RuleResolved, Matches, FlowsResolved, ProxyResolved, OAuth2Resolved, FlowLookups, KindLookups, RuleLookups,
      ValidRule, Directory.Valid;
    var c := new Collector(dir);
    assert c.looked == [];
    ghost var part: seq<Lookup> := [];
    var flows: Option<Flows>, proxy: Option<ProxyReferences>, oauth2: Option<OAuth2References> := None, None, None;
    if spec.provider.Some? {
      var provider := spec.provider.value;
      var f := ResolveFlows(c, dir, provider.flows);
      if f.Err? { return LookupFailed(f.error); }
      flows := Some(f.value);
      if provider.kind.ProxySpec? {
        var p := ResolveProxy(c, dir, provider.kind);
        if p.Err? { return LookupFailed(p.error); }
        proxy := Some(p.value);
      } else {
        var o := ResolveOAuth2(c, dir, provider.kind);
        if o.Err? { return LookupFailed(o.error); }
        oauth2 := Some(o.value);
      }
      part := FlowLookups(provider.flows) + KindLookups(dir, provider.kind);
      FailuresAppend(dir, FlowLookups(provider.flows), KindLookups(dir, provider.kind));
      assert [] + FlowLookups(provider.flows) + KindLookups(dir, provider.kind) == part;
    }
    var rules := ResolveRules(c, dir, spec.rules);
    if rules.Err? { return LookupFailed(rules.error); }
    assert part + RuleLookups(spec.rules) == Lookups(dir, spec);
    FailuresAppend(dir, part, RuleLookups(spec.rules));
    if c.failures != [] {
      return Unresolved(c.failures);
    }
    NoFailures(dir, Lookups(dir, spec));
    RulesAllResolved(dir, spec.rules, rules.value);
    return Resolved(Resolution(flows, proxy, oauth2, rules.value));
  }

  lemma RulesAllResolved(dir: Directory, specs: seq<RuleSpec>, rules: seq<Rule>)
    requires dir.Valid() && |rules| == |specs| && AllFound(dir, RuleLookups(specs))
    requires forall i :: 0 <= i < |specs| && Matches(dir, RuleLookups(specs)[i]) == 1 ==> RuleResolved(dir, specs[i], rules[i])
    ensures ValidRules(rules) && forall i :: 0 <= i < |rules| ==> RuleResolved(dir, specs[i], rules[i])
  {
    hide Matches, RuleResolved, ValidRule, RuleLookup, Failures;
    NoFailures(dir, RuleLookups(specs));
    forall i | 0 <= i < |rules| ensures RuleResolved(dir, specs[i], rules[i]) && ValidRule(rules[i]) {
      assert RuleLookups(specs)[i] in RuleLookups(specs);
      ResolvedRuleIsValid(dir, specs[i], rules[i]);
    }
  }

  datatype Reason = ReferenceNotFound | AmbiguousReference

  /** The reason of the Ready condition: a missing reference takes precedence over ambiguous ones. */
  method ReasonOf(failures: seq<Failure>) returns (reason: Reason)
    ensures reason == ReferenceNotFound <==> exists i :: 0 <= i < |failures| && failures[i].matches <= 1
  {
    for i := 0 to |failures|
      invariant forall j :: 0 <= j < i ==> failures[j].Ambiguous()
    {
      if !failures[i].Ambiguous() {
        return ReferenceNotFound;
      }
    }
    return AmbiguousReference;
  }

  /** A listed failure that is not ambiguous is a reference without any match. */
  lemma {:induction false} FailuresAreMissingOrAmbiguous(dir: Directory, lookups: seq<Lookup>)
    ensures forall f :: f in Failures(dir, lookups) ==> f.matches != 1
    ensures forall f :: f in Failures(dir, lookups) ==> exists l :: l in lookups && l.path == f.path && Matches(dir, l) == f.matches
  {
    if lookups != [] {
      FailuresAreMissingOrAmbiguous(dir, lookups[1..]);
      assert lookups[0] in lookups;
    }
  }

  /** Without the range check, a pk beyond 32 bits would name another User. */
  lemma ConversionWouldWrap(pk: int)
    requires 1 <= pk <= MAX_INT32
    ensures Int32(pk + 0x1_0000_0000) == pk && pk + 0x1_0000_0000 > MAX_INT32
  {}
}
