/** Values shared by every module: optional and nullable fields, call results, and facts about finite sets. */
module Base {

  /** An optional value. */
  datatype Option<+T> = None | Some(value: T)

  /** A nullable API field: absent from the body, sent as null, or sent with a value. */
  datatype Nullable<+T> = Unset | Null | Value(value: T)
  {
    function Get(): Option<T> {
      if Value? then Some(value) else None
    }
  }

  /** The identifier of a stored object; 0 stands for the empty string. */
  type Key = nat

  const EMPTY: Key := 0

  const MAX_INT32: int := 0x7fff_ffff

  /** Two's complement truncation to 32 bits, which is what Go's int32 arithmetic does. */
  function Int32(x: int): (r: int)
    ensures -0x8000_0000 <= r <= MAX_INT32
    ensures -0x8000_0000 <= x <= MAX_INT32 ==> r == x
    ensures (x - r) % 0x1_0000_0000 == 0
  {
    (x + 0x8000_0000) % 0x1_0000_0000 - 0x8000_0000
  }

  /** Why a reconcile stops without an error that is retried with backoff. */
  datatype StopReason = Conflict | Unmanaged | AdoptionDiff | ProviderTypeMismatch | UnmanagedBindings

  datatype Error =
    | NotFound
    | BadRequest          // the server's validation refused the request
    | ServerError         // the server failed on the request itself
    | Unavailable         // the request or the status update never took effect
    | AmbiguousRole       // several roles carry the name of the ownership role
    | Stop(reason: StopReason)

  datatype Result<+T> = Ok(value: T) | Err(error: Error)

  function Elements<T>(s: seq<T>): set<T> {
    set x | x in s
  }

  /** Removes every occurrence of a value and keeps the order of the others. */
  function Without<T(==,!new)>(s: seq<T>, x: T): (r: seq<T>)
    ensures x !in r
    ensures forall y :: y in r <==> y in s && y != x
    ensures x !in s ==> r == s
  {
    if s == [] then []
    else if s[0] == x then Without(s[1..], x)
    else [s[0]] + Without(s[1..], x)
  }

  lemma {:induction false} WithoutAppend<T(!new)>(s: seq<T>, t: seq<T>, x: T)
    ensures Without(s + t, x) == Without(s, x) + Without(t, x)
  {
    if s == [] {
      assert s + t == t;
    } else {
      assert (s + t)[1..] == s[1..] + t;
      WithoutAppend(s[1..], t, x);
    }
  }

  /** A subset that is as large as its superset is the superset. */
  lemma SubsetOfEqualSize<T>(a: set<T>, b: set<T>)
    requires a <= b && |a| == |b|
    ensures a == b
  {
    if a != b {
      var x :| x in b && x !in a;
      SubsetSize(a, b - {x});
    }
  }

  lemma {:induction false} SubsetSize<T>(a: set<T>, b: set<T>)
    requires a <= b
    ensures |a| <= |b|
  {
    if x :| x in a {
      SubsetSize(a - {x}, b - {x});
    }
  }

  lemma DisjointPartsSize<T>(a: set<T>, b: set<T>, whole: set<T>)
    requires a !! b && a <= whole && b <= whole
    ensures |a| + |b| <= |whole|
  {
    assert |a + b| == |a| + |b|;
    SubsetSize(a + b, whole);
  }

  /** Counting along an injection: the image of a set has as many elements as the set. */
  lemma {:induction false} InjectiveImageSize<T>(domain: set<nat>, image: map<nat, T>)
    requires domain <= image.Keys
    requires forall i, j :: i in domain && j in domain && i != j ==> image[i] != image[j]
    ensures |set i | i in domain :: image[i]| == |domain|
  {
    if i :| i in domain {
      var rest := domain - {i};
      InjectiveImageSize(rest, image);
      assert (set j | j in domain :: image[j]) == (set j | j in rest :: image[j]) + {image[i]};
    }
  }

  /** The image of a set is no larger than the set. */
  lemma {:induction false} ImageSize<T>(domain: set<nat>, image: map<nat, T>)
    requires domain <= image.Keys
    ensures |set i | i in domain :: image[i]| <= |domain|
  {
    if i :| i in domain {
      var rest := domain - {i};
      ImageSize(rest, image);
      assert (set j | j in domain :: image[j]) == (set j | j in rest :: image[j]) + {image[i]};
    }
  }

  /** A set that is hit by every one of some elements is no larger than they are. */
  lemma SurjectionSize<T>(domain: set<nat>, image: map<nat, T>, codomain: set<T>)
    requires domain <= image.Keys
    requires forall y :: y in codomain ==> exists x :: x in domain && image[x] == y
    ensures |codomain| <= |domain|
  {
    ImageSize(domain, image);
    var hit := set x | x in domain :: image[x];
    assert codomain <= hit;
    SubsetSize(codomain, hit);
  }

  /** Elements with different images in a set are no more than the set has. */
  lemma InjectionSize<T>(domain: set<nat>, image: map<nat, T>, codomain: set<T>)
    requires domain <= image.Keys
    requires forall x, y :: x in domain && y in domain && x != y ==> image[x] != image[y]
    requires forall x :: x in domain ==> image[x] in codomain
    ensures |domain| <= |codomain|
  {
    InjectiveImageSize(domain, image);
    SubsetSize(set x | x in domain :: image[x], codomain);
  }
}
