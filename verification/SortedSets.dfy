/** Redis sorted sets: members ordered by score, ties broken by the bytes of the member. */
module SortedSets {
  import opened Prelude

  /** A member: the decimal event id. */
  datatype Id = Id(digits: string)

  type ZSet = map<Id, int>

  predicate LexLess(a: string, b: string) {
    b != "" && (a == "" || a[0] < b[0] || (a[0] == b[0] && LexLess(a[1..], b[1..])))
  }

  lemma {:induction false} LexTrichotomy(a: string, b: string)
    ensures LexLess(a, b) <==> a != b && !LexLess(b, a)
  {
    if a != "" && b != "" {
      LexTrichotomy(a[1..], b[1..]);
      assert a == [a[0]] + a[1..] && b == [b[0]] + b[1..];
    }
  }

  lemma {:induction false} LexTransitive(a: string, b: string, c: string)
    requires LexLess(a, b) && LexLess(b, c)
    ensures LexLess(a, c)
  {
    if a != "" && b[0] == a[0] && c[0] == b[0] {
      LexTransitive(a[1..], b[1..], c[1..]);
    }
  }

  predicate Before(z: ZSet, a: Id, b: Id)
    requires a in z && b in z
  {
    z[a] < z[b] || (z[a] == z[b] && LexLess(a.digits, b.digits))
  }

  lemma BeforeTrichotomy(z: ZSet, a: Id, b: Id)
    requires a in z && b in z
    ensures Before(z, a, b) <==> a != b && !Before(z, b, a)
  {
    LexTrichotomy(a.digits, b.digits);
  }

  lemma BeforeTransitive(z: ZSet, a: Id, b: Id, c: Id)
    requires a in z && b in z && c in z
    requires Before(z, a, b) && Before(z, b, c)
    ensures Before(z, a, c)
  {
    if z[a] == z[b] == z[c] {
      LexTransitive(a.digits, b.digits, c.digits);
    }
  }

  /** Ties go by the first byte in which the members differ, or to the one that ends before the other. */
  lemma {:induction false} TiesGoByBytes(common: string, a: string, b: string)
    requires a != b && (a == "" || b == "" || a[0] != b[0])
    ensures LexLess(common + a, common + b) <==> a == "" || (b != "" && a[0] < b[0])
  {
    if common == "" {
      assert common + a == a && common + b == b;
    } else {
      assert (common + a)[0] == (common + b)[0] == common[0];
      assert (common + a)[1..] == common[1..] + a && (common + b)[1..] == common[1..] + b;
      TiesGoByBytes(common[1..], a, b);
    }
  }

  /** What ZRANGEBYSCORE z -inf max LIMIT 0 limit answers: the least members with score at most
      max, in order, cut off only by the limit. */
  ghost predicate IsRange(z: ZSet, max: int, limit: nat, ids: seq<Id>) {
    && |ids| <= limit
    && (forall i :: 0 <= i < |ids| ==> ids[i] in z && z[ids[i]] <= max)
    && (forall i, j :: 0 <= i < j < |ids| ==> Before(z, ids[i], ids[j]))
    && (forall x :: x in z && z[x] <= max && x !in ids ==>
          |ids| == limit && forall i :: 0 <= i < |ids| ==> Before(z, ids[i], x))
  }

  lemma RangeDistinct(z: ZSet, max: int, limit: nat, ids: seq<Id>)
    requires IsRange(z, max, limit, ids)
    ensures forall i, j :: 0 <= i < j < |ids| ==> ids[i] != ids[j]
  {
    forall i, j | 0 <= i < j < |ids| ensures ids[i] != ids[j] {
      BeforeTrichotomy(z, ids[i], ids[j]);
    }
  }

  lemma RangeLeast(z: ZSet, max: int, limit: nat, a: seq<Id>, b: seq<Id>, k: nat)
    requires IsRange(z, max, limit, a) && IsRange(z, max, limit, b)
    requires k < |a| && k < |b| && a[..k] == b[..k]
    ensures a[k] == b[k] || Before(z, b[k], a[k])
  {
    RangeDistinct(z, max, limit, a);
    forall j | 0 <= j < k ensures b[j] != a[k] {
      assert b[j] == b[..k][j] == a[..k][j] == a[j];
    }
  }

  lemma {:induction false} RangePrefix(z: ZSet, max: int, limit: nat, a: seq<Id>, b: seq<Id>, n: nat)
    requires IsRange(z, max, limit, a) && IsRange(z, max, limit, b)
    requires n <= |a| && n <= |b|
    ensures a[..n] == b[..n]
  {
    if n > 0 {
      var k := n - 1;
      RangePrefix(z, max, limit, a, b, k);
      RangeLeast(z, max, limit, a, b, k);
      RangeLeast(z, max, limit, b, a, k);
      BeforeTrichotomy(z, a[k], b[k]);
      assert a[..n] == a[..k] + [a[k]] && b[..n] == b[..k] + [b[k]];
    }
  }

  lemma RangeFresh(z: ZSet, max: int, limit: nat, ids: seq<Id>, n: nat)
    requires IsRange(z, max, limit, ids) && n < |ids|
    ensures ids[n] !in ids[..n]
  {
    RangeDistinct(z, max, limit, ids);
  }

  lemma RangeLength(z: ZSet, max: int, limit: nat, a: seq<Id>, b: seq<Id>)
    requires IsRange(z, max, limit, a) && IsRange(z, max, limit, b)
    ensures |b| <= |a|
  {
    if |a| < |b| {
      RangePrefix(z, max, limit, a, b, |a|);
      assert a[..|a|] == a;
      RangeFresh(z, max, limit, b, |a|);
    }
  }

  /** IsRange determines the answer completely. */
  lemma RangeUnique(z: ZSet, max: int, limit: nat, a: seq<Id>, b: seq<Id>)
    requires IsRange(z, max, limit, a) && IsRange(z, max, limit, b)
    ensures a == b
  {
    RangeLength(z, max, limit, a, b);
    RangeLength(z, max, limit, b, a);
    RangePrefix(z, max, limit, a, b, |a|);
  }

  /** Every non-empty set of members has a first one. */
  lemma {:induction false} LeastExists(z: ZSet, candidates: set<Id>) returns (best: Id)
    requires candidates != {} && candidates <= z.Keys
    ensures best in candidates
    ensures forall x :: x in candidates && x != best ==> Before(z, best, x)
    decreases candidates
  {
    best :| best in candidates;
    var rest := candidates - {best};
    assert forall x :: x in candidates ==> x == best || x in rest;
    if rest != {} {
      var other := LeastExists(z, rest);
      BeforeTrichotomy(z, best, other);
      if Before(z, best, other) {
        forall x | x in rest ensures Before(z, best, x) {
          if x != other {
            BeforeTransitive(z, best, other, x);
          }
        }
      } else {
        best := other;
      }
    }
  }

  /** Every set of members can be listed in order. */
  lemma {:induction false} ListExists(z: ZSet, members: set<Id>) returns (ids: seq<Id>)
    requires members <= z.Keys
    ensures forall x :: x in ids <==> x in members
    ensures forall i, j :: 0 <= i < j < |ids| ==> ids[i] in z && ids[j] in z && Before(z, ids[i], ids[j])
    decreases members
  {
    if members == {} {
      ids := [];
    } else {
      var best := LeastExists(z, members);
      var rest := ListExists(z, members - {best});
      ids := [best] + rest;
      forall i, j | 0 <= i < j < |ids| ensures ids[i] in z && ids[j] in z && Before(z, ids[i], ids[j]) {
        assert ids[j] == rest[j - 1] && rest[j - 1] in rest;
        if i > 0 {
          assert ids[i] == rest[i - 1];
        }
      }
    }
  }

  /** The whole range up to max, as one answer. */
  lemma RangeExists(z: ZSet, max: int) returns (ids: seq<Id>)
    ensures IsRange(z, max, |ids|, ids) && forall x :: x in z && z[x] <= max ==> x in ids
  {
    var members := set x | x in z && z[x] <= max;
    ids := ListExists(z, members);
    forall i | 0 <= i < |ids| ensures ids[i] in z && z[ids[i]] <= max {
      assert ids[i] in ids;
    }
    assert forall x :: x in z && z[x] <= max ==> x in members;
  }

  /** The least member of a non-empty candidate set. */
  method Least(z: ZSet, candidates: set<Id>) returns (best: Id)
    requires candidates != {} && candidates <= z.Keys
    ensures best in candidates
    ensures forall x :: x in candidates && x != best ==> Before(z, best, x)
  {
    best :| best in candidates;
    var rest := candidates - {best};
    while rest != {}
      invariant rest <= candidates && best in candidates && best !in rest
      invariant forall x :: x in candidates - rest && x != best ==> Before(z, best, x)
      decreases rest
    {
      var x :| x in rest;
      BeforeTrichotomy(z, best, x);
      if Before(z, x, best) {
        forall y | y in candidates - rest && y != best ensures Before(z, x, y) {
          BeforeTransitive(z, x, best, y);
        }
        best := x;
      }
      rest := rest - {x};
    }
  }

  /** Selection of the range, least member first. */
  method RangeByScore(z: ZSet, max: int, limit: nat) returns (ids: seq<Id>)
    ensures IsRange(z, max, limit, ids)
  {
    ids := [];
    var rest := set x | x in z && z[x] <= max;
    while |ids| < limit && rest != {}
      invariant |ids| <= limit
      invariant rest <= z.Keys
      invariant forall x :: x in z && z[x] <= max ==> x in rest || x in ids
      invariant forall x :: x in rest ==> z[x] <= max && x !in ids
      invariant forall i :: 0 <= i < |ids| ==> ids[i] in z && z[ids[i]] <= max
      invariant forall i, j :: 0 <= i < j < |ids| ==> Before(z, ids[i], ids[j])
      invariant forall i, x :: 0 <= i < |ids| && x in rest ==> Before(z, ids[i], x)
      decreases rest
    {
      var best := Least(z, rest);
      ids := ids + [best];
      rest := rest - {best};
    }
  }

  /** The first due member, as ZRANGEBYSCORE ... LIMIT 0 1 answers it. */
  ghost predicate IsFirstDue(z: ZSet, max: int, first: Option<Id>) {
    match first
    case None => forall x :: x in z ==> max < z[x]
    case Some(id) =>
      id in z && z[id] <= max && forall x :: x in z && x != id ==> Before(z, id, x)
  }

  method FirstDue(z: ZSet, max: int) returns (first: Option<Id>)
    ensures IsFirstDue(z, max, first)
  {
    var ids := RangeByScore(z, max, 1);
    if ids == [] {
      first := None;
    } else {
      first := Some(ids[0]);
      forall x | x in z && x != ids[0] ensures Before(z, ids[0], x) {
        assert x !in ids;
      }
    }
  }
}
