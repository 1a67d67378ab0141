/** Parts of a list that keep its order, and lists put together from parts. */
module Selections {

  ghost predicate Ascending(at: seq<nat>) {
    forall a, b :: 0 <= a < b < |at| ==> at[a] < at[b]
  }

  /** `at` lists, in order, the positions below n at which p holds. */
  ghost predicate Positions(at: seq<nat>, n: nat, p: nat -> bool) {
    Ascending(at) && forall k: nat :: k in at <==> k < n && p(k)
  }

  /** Entry j of the part stands for position at[j] of the list, as r tells. */
  ghost predicate Matched(at: seq<nat>, count: nat, r: (nat, nat) -> bool) {
    |at| == count && forall j: nat :: j < count ==> r(j, at[j])
  }

  lemma NoPositions(p: nat -> bool)
    ensures Positions([], 0, p)
  {
  }

  /** One more element of the list. */
  lemma NextPosition(at: seq<nat>, n: nat, p: nat -> bool, q: nat -> bool)
    requires Positions(at, n, p) && forall k: nat :: k < n ==> p(k) == q(k)
    ensures Positions(if q(n) then at + [n] else at, n + 1, q)
  {
    assert forall j :: 0 <= j < |at| ==> at[j] in at;
  }

  /** The part grows by the new element if that belongs to it. */
  lemma NextSelected(at: seq<nat>, n: nat, p: nat -> bool, q: nat -> bool,
                     count: nat, r: (nat, nat) -> bool, s: (nat, nat) -> bool) returns (more: seq<nat>)
    requires Positions(at, n, p) && (forall k: nat :: k < n ==> p(k) == q(k))
    requires Matched(at, count, r) && (forall j: nat, k: nat :: r(j, k) ==> s(j, k)) && (q(n) ==> s(count, n))
    ensures Positions(more, n + 1, q) && Matched(more, if q(n) then count + 1 else count, s)
  {
    NextPosition(at, n, p, q);
    more := if q(n) then at + [n] else at;
  }

  /** The part grew by one element, which stands for position k, or not at all. */
  ghost predicate GrewBy<B>(was: seq<B>, now: seq<B>, grows: bool, k: nat, q: (B, nat) -> bool) {
    if grows then |now| == |was| + 1 && was <= now && q(now[|was|], k) else now == was
  }

  ghost function Standing<B>(part: seq<B>, q: (B, nat) -> bool): (nat, nat) -> bool {
    (j: nat, k: nat) => j < |part| && q(part[j], k)
  }

  /** A part that grows where p holds stands for the positions where it holds. */
  lemma {:induction false} SelectedAll<B>(n: nat, part: nat -> seq<B>, p: nat -> bool, q: (B, nat) -> bool)
    returns (at: seq<nat>)
    requires part(0) == [] && forall k: nat :: k < n ==> GrewBy(part(k), part(k + 1), p(k), k, q)
    ensures Positions(at, n, p) && Matched(at, |part(n)|, Standing(part(n), q))
  {
    if n == 0 {
      at := [];
    } else {
      at := SelectedAll(n - 1, part, p, q);
      assert GrewBy(part(n - 1), part(n - 1 + 1), p(n - 1), n - 1, q);
      at := NextSelected(at, n - 1, p, p, |part(n - 1)|, Standing(part(n - 1), q), Standing(part(n), q));
    }
  }

  lemma HasFirst(at: seq<nat>)
    ensures at != [] ==> at[0] in at
  {
  }

  /** Positions are determined by what holds where. */
  lemma {:induction false} OnePositions(a: seq<nat>, b: seq<nat>, n: nat, p: nat -> bool)
    requires Positions(a, n, p) && Positions(b, n, p)
    ensures a == b
  {
    HasFirst(b);
    if a != [] {
      var x := a[|a| - 1];
      assert x in a && b != [];
      LastIsHighest(a, n, p);
      LastIsHighest(b, n, p);
      var q := (k: nat) => k < x && p(k);
      FrontPositions(a, n, p, q, x);
      FrontPositions(b, n, p, q, x);
      OnePositions(a[..|a| - 1], b[..|b| - 1], n, q);
      assert a == a[..|a| - 1] + [x] && b == b[..|b| - 1] + [x];
    }
  }

  lemma LastIsHighest(at: seq<nat>, n: nat, p: nat -> bool)
    requires Positions(at, n, p) && at != []
    ensures forall k: nat :: k < n && p(k) ==> k <= at[|at| - 1]
    ensures at[|at| - 1] < n && p(at[|at| - 1])
  {
    assert at[|at| - 1] in at;
  }

  lemma FrontPositions(at: seq<nat>, n: nat, p: nat -> bool, q: nat -> bool, x: nat)
    requires Positions(at, n, p) && at != [] && at[|at| - 1] == x
    requires forall k: nat :: k < n ==> q(k) == (k < x && p(k))
    ensures Positions(at[..|at| - 1], n, q)
  {
    var front := at[..|at| - 1];
    assert at == front + [x];
    forall k: nat ensures k in front <==> k < n && q(k) {
      assert k in at <==> k in front || k == x;
      if k in front {
        var j :| 0 <= j < |front| && front[j] == k;
        assert at[j] < at[|at| - 1];
      }
    }
  }

  // ---- Gathering ----------------------------------------------------------------------------

  /** What each element gives, one after the other. */
  function Gather<A, B>(list: seq<A>, f: A -> seq<B>): seq<B> {
    if list == [] then [] else Gather(list[..|list| - 1], f) + f(list[|list| - 1])
  }

  lemma {:induction false} GatherJoin<A, B>(a: seq<A>, b: seq<A>, f: A -> seq<B>)
    ensures Gather(a + b, f) == Gather(a, f) + Gather(b, f)
  {
    if b == [] {
      assert a + b == a;
    } else {
      GatherJoin(a, b[..|b| - 1], f);
      assert (a + b)[..|a + b| - 1] == a + b[..|b| - 1];
    }
  }

  lemma GatherOne<A, B>(x: A, f: A -> seq<B>)
    ensures Gather([x], f) == f(x) && Gather([], f) == []
  {
    assert [x][..0] == [];
  }

  /** Gathering from what was gathered. */
  lemma {:induction false} GatherTwice<A, B, C>(list: seq<A>, f: A -> seq<B>, g: B -> seq<C>, h: A -> seq<C>)
    requires forall x :: h(x) == Gather(f(x), g)
    ensures Gather(list, h) == Gather(Gather(list, f), g)
  {
    if list != [] {
      GatherTwice(list[..|list| - 1], f, g, h);
      GatherJoin(Gather(list[..|list| - 1], f), f(list[|list| - 1]), g);
    }
  }
}
