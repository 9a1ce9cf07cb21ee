/** How queries may follow one another: shared by the two caches that are there to slow them down. */
module Pacing {

  /** A query made at a clock reading, and whether it was answered. */
  datatype Query = Query(at: int, answered: bool)

  function Last<T>(s: seq<T>): T
    requires s != []
  {
    s[|s| - 1]
  }

  /** Any two stamps are a TTL apart for each step between them. */
  ghost predicate Spaced(st: seq<int>, ttl: nat) {
    forall i, j :: 0 <= i < j < |st| ==> st[j] - st[i] >= (j - i) * ttl
  }

  /** An answered query is followed by none for a TTL. */
  ghost predicate Paced(qs: seq<Query>, ttl: nat) {
    forall i, j :: 0 <= i < j < |qs| ==> qs[i].at <= qs[j].at && (qs[i].answered ==> qs[j].at - qs[i].at >= ttl)
  }

  /** The rate itself: n queries, answered or not, span n - 1 TTLs, wherever one starts counting. */
  ghost predicate EveryTtl(qs: seq<Query>, ttl: nat) {
    forall i, j :: 0 <= i < j < |qs| ==> qs[j].at - qs[i].at >= (j - i) * ttl
  }

  ghost predicate AllAnswered(qs: seq<Query>) { forall i :: 0 <= i < |qs| ==> qs[i].answered }

  function AnsweredCount(qs: seq<Query>): nat {
    if qs == [] then 0 else AnsweredCount(qs[..|qs| - 1]) + if Last(qs).answered then 1 else 0
  }

  /** The latest query was answered, so the next is not due for a TTL. */
  predicate Resting(qs: seq<Query>) { qs != [] && Last(qs).answered }

  lemma SpacedGrows(st: seq<int>, t: int, ttl: nat)
    requires Spaced(st, ttl) && (st != [] ==> t - Last(st) >= ttl)
    ensures Spaced(st + [t], ttl)
  {
    var more, n := st + [t], |st|;
    forall i, j | 0 <= i < j < |more| ensures more[j] - more[i] >= (j - i) * ttl {
      if j == n && i < n - 1 {
        assert st[n - 1] - st[i] >= (n - 1 - i) * ttl;
        assert (n - i) * ttl == (n - 1 - i) * ttl + ttl;
      }
    }
  }

  lemma PacedGrows(qs: seq<Query>, q: Query, ttl: nat)
    requires Paced(qs, ttl) && (qs != [] ==> Last(qs).at <= q.at)
    requires Resting(qs) ==> q.at - Last(qs).at >= ttl
    ensures Paced(qs + [q], ttl)
  {}

  lemma PacedInit(qs: seq<Query>, ttl: nat)
    requires |qs| > 1 && Paced(qs, ttl)
    ensures Paced(qs[..|qs| - 1], ttl)
    ensures Last(qs).at - qs[|qs| - 2].at >= if qs[|qs| - 2].answered then ttl else 0
  {}

  lemma OneMore(n: nat, ttl: nat)
    ensures (n + 1) * ttl == n * ttl + ttl
  {}

  /** Of n paced queries, every answered one but the last costs a TTL. */
  lemma {:induction false} PacedSpan(qs: seq<Query>, ttl: nat)
    requires qs != [] && Paced(qs, ttl)
    ensures Last(qs).at - qs[0].at >= AnsweredCount(qs[..|qs| - 1]) * ttl
  {
    hide Paced;
    if |qs| > 1 {
      var init := qs[..|qs| - 1];
      PacedInit(qs, ttl);
      PacedSpan(init, ttl);
      assert Last(init) == qs[|qs| - 2];
      OneMore(AnsweredCount(init[..|init| - 1]), ttl);
    } else {
      assert qs[..|qs| - 1] == [];
    }
  }

  lemma {:induction false} AnsweredAll(qs: seq<Query>)
    requires AllAnswered(qs)
    ensures AnsweredCount(qs) == |qs|
  {
    if qs != [] {
      AnsweredAll(qs[..|qs| - 1]);
    }
  }

  /** Pacing is the rate once no query fails. */
  lemma PacedIsEveryTtl(qs: seq<Query>, ttl: nat)
    requires Paced(qs, ttl) && AllAnswered(qs)
    ensures EveryTtl(qs, ttl)
  {
    forall i, j | 0 <= i < j < |qs| ensures qs[j].at - qs[i].at >= (j - i) * ttl {
      var part := qs[i..j + 1];
      PacedSpan(part, ttl);
      AnsweredAll(part[..|part| - 1]);
    }
  }

  lemma AtOnce(qs: seq<Query>, a: Query, b: Query, ttl: nat)
    requires a.at == b.at && ttl > 0
    ensures !EveryTtl(qs + [a] + [b], ttl)
  {
    var more, n := qs + [a] + [b], |qs|;
    assert more[n] == a && more[n + 1] == b;
    assert (n + 1 - n) * ttl == ttl;
  }
}
