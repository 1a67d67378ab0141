/** Bounding the live memories of each kind (internal/dreaming/caps.go:10-127,
    internal/dreaming/worker.go:482-505). */
module MemoryCaps {
  import opened Provider

  datatype Kind = Fact | Preference | Insight | Summary | Unrecognized(name: string)

  datatype Memory = Memory(id: string, kind: Kind, createdAt: int, deprecated: bool, content: string)

  datatype Group = Facts | Insights | Summaries

  datatype Caps = Caps(facts: nat, insights: nat, summaries: nat)
  {
    function Limit(g: Group): nat {
      match g
      case Insights => insights
      case Summaries => summaries
      case Facts => facts
    }
  }

  function CapGroupOf(k: Kind): Group {
    match k
    case Insight => Insights
    case Summary => Summaries
    case Fact => Facts
    case Preference => Facts
    case Unrecognized(_) => Facts
  }

  // ---- Age ---------------------------------------------------------------------------------

  /** Byte-wise order of ids. */
  predicate Less(a: string, b: string) {
    if b == "" then false
    else if a == "" then true
    else if a[0] != b[0] then a[0] < b[0]
    else Less(a[1..], b[1..])
  }

  predicate Older(a: Memory, b: Memory) {
    if a.createdAt == b.createdAt then Less(a.id, b.id) else a.createdAt < b.createdAt
  }

  lemma {:induction false} LessTotal(a: string, b: string)
    ensures Less(a, b) || Less(b, a) || a == b
    ensures !(Less(a, b) && Less(b, a))
  {
    if a != "" && b != "" && a[0] == b[0] {
      LessTotal(a[1..], b[1..]);
      assert a == [a[0]] + a[1..] && b == [b[0]] + b[1..];
    }
  }

  lemma {:induction false} LessTransitive(a: string, b: string, c: string)
    requires Less(a, b) && Less(b, c)
    ensures Less(a, c)
  {
    if a != "" && a[0] == b[0] && b[0] == c[0] {
      LessTransitive(a[1..], b[1..], c[1..]);
    }
  }

  lemma OlderTransitive(a: Memory, b: Memory, c: Memory)
    requires Older(a, b) && Older(b, c)
    ensures Older(a, c)
  {
    if a.createdAt == b.createdAt == c.createdAt {
      LessTransitive(a.id, b.id, c.id);
    }
  }

  // ---- Lists and sets of memories --------------------------------------------------------------

  ghost predicate DistinctIds(ms: seq<Memory>) {
    forall a, b :: 0 <= a < b < |ms| ==> ms[a].id != ms[b].id
  }

  predicate Sorted(ms: seq<Memory>) {
    forall a, b :: 0 <= a < b < |ms| ==> Older(ms[a], ms[b])
  }

  function Ids(ms: seq<Memory>): set<string> {
    set m | m in ms :: m.id
  }

  lemma {:induction false} IdsCount(ms: seq<Memory>)
    requires DistinctIds(ms)
    ensures |Ids(ms)| == |ms|
  {
    if ms != [] {
      var front, last := ms[..|ms| - 1], ms[|ms| - 1];
      IdsCount(front);
      assert ms == front + [last];
      assert Ids(ms) == Ids(front) + {last.id};
    }
  }

  function Insert(m: Memory, ms: seq<Memory>): seq<Memory> {
    if ms == [] then [m]
    else if Older(m, ms[0]) then [m] + ms
    else [ms[0]] + Insert(m, ms[1..])
  }

  function SortByAge(ms: seq<Memory>): seq<Memory> {
    if ms == [] then [] else Insert(ms[|ms| - 1], SortByAge(ms[..|ms| - 1]))
  }

  lemma {:induction false} InsertKeeps(m: Memory, ms: seq<Memory>)
    ensures |Insert(m, ms)| == |ms| + 1 && forall x :: x in Insert(m, ms) <==> x in ms || x == m
  {
    if ms != [] && !Older(m, ms[0]) {
      InsertKeeps(m, ms[1..]);
      assert ms == [ms[0]] + ms[1..];
    }
  }

  lemma {:induction false} InsertSorted(m: Memory, ms: seq<Memory>)
    requires Sorted(ms) && forall k :: 0 <= k < |ms| ==> ms[k].id != m.id
    ensures Sorted(Insert(m, ms))
  {
    if ms != [] {
      LessTotal(m.id, ms[0].id);
      if Older(m, ms[0]) {
        forall k | 0 < k < |ms| ensures Older(m, ms[k]) {
          OlderTransitive(m, ms[0], ms[k]);
        }
      } else {
        InsertSorted(m, ms[1..]);
        InsertKeeps(m, ms[1..]);
        assert forall x :: x in Insert(m, ms[1..]) ==> Older(ms[0], x);
      }
    }
  }

  lemma {:induction false} SortKeeps(ms: seq<Memory>)
    ensures |SortByAge(ms)| == |ms| && forall m :: m in SortByAge(ms) <==> m in ms
  {
    if ms != [] {
      SortKeeps(ms[..|ms| - 1]);
      InsertKeeps(ms[|ms| - 1], SortByAge(ms[..|ms| - 1]));
      assert ms == ms[..|ms| - 1] + [ms[|ms| - 1]];
    }
  }

  lemma {:induction false} SortSorts(ms: seq<Memory>)
    requires DistinctIds(ms)
    ensures Sorted(SortByAge(ms))
  {
    if ms != [] {
      var front := ms[..|ms| - 1];
      SortSorts(front);
      SortKeeps(front);
      forall k | 0 <= k < |SortByAge(front)| ensures SortByAge(front)[k].id != ms[|ms| - 1].id {
        assert SortByAge(front)[k] in front;
      }
      InsertSorted(ms[|ms| - 1], SortByAge(front));
    }
  }

  // ---- Eviction ------------------------------------------------------------------------------

  predicate Counted(m: Memory, g: Group) {
    !m.deprecated && CapGroupOf(m.kind) == g
  }

  function Pool(ms: seq<Memory>, g: Group): seq<Memory> {
    if ms == [] then [] else
    var rest := Pool(ms[..|ms| - 1], g);
    if Counted(ms[|ms| - 1], g) then rest + [ms[|ms| - 1]] else rest
  }

  lemma {:induction false} PoolMembers(ms: seq<Memory>, g: Group)
    ensures forall m :: m in Pool(ms, g) <==> m in ms && Counted(m, g)
    ensures DistinctIds(ms) ==> DistinctIds(Pool(ms, g))
  {
    if ms != [] {
      var front, last := ms[..|ms| - 1], ms[|ms| - 1];
      PoolMembers(front, g);
      assert ms == front + [last];
      if DistinctIds(ms) {
        forall m | m in front ensures m.id != last.id {
          var k :| 0 <= k < |front| && front[k] == m;
          assert ms[k].id != ms[|ms| - 1].id;
        }
      }
    }
  }

  /** `evict` holds the oldest of the pool, so that at most `limit` remain. */
  ghost predicate EvictsOldest(pool: seq<Memory>, limit: nat, evict: seq<Memory>) {
    && |evict| == (if |pool| <= limit then 0 else |pool| - limit)
    && DistinctIds(evict)
    && (forall m :: m in evict ==> m in pool)
    && (forall e, s :: e in evict && s in pool && s !in evict ==> Older(e, s))
  }

  method OverCap(live: seq<Memory>, g: Group, limit: nat) returns (evict: seq<Memory>)
    requires DistinctIds(live)
    ensures EvictsOldest(Pool(live, g), limit, evict)
  {
    var pool := [];
    for k := 0 to |live|
      invariant pool == Pool(live[..k], g)
    {
      assert live[..k + 1][..k] == live[..k];
      if !live[k].deprecated && CapGroupOf(live[k].kind) == g {
        pool := pool + [live[k]];
      }
    }
    assert live[..|live|] == live;
    PoolMembers(live, g);
    if |pool| <= limit {
      return [];
    }
    var sorted := SortByAge(pool);
    SortPrefix(pool, |pool| - limit);
    evict := sorted[..|pool| - limit];
  }

  lemma FrontMember(ms: seq<Memory>, n: nat, k: nat)
    requires n <= |ms| && k < |ms|
    ensures k < n ==> ms[k] in ms[..n]
  {
    if k < n {
      assert ms[..n][k] == ms[k];
    }
  }

  lemma SortPrefix(pool: seq<Memory>, n: nat)
    requires DistinctIds(pool) && n <= |pool|
    ensures |SortByAge(pool)| == |pool| && DistinctIds(SortByAge(pool)[..n])
    ensures forall m :: m in SortByAge(pool)[..n] ==> m in pool
    ensures forall e, s :: e in SortByAge(pool)[..n] && s in pool && s !in SortByAge(pool)[..n] ==> Older(e, s)
  {
    var sorted := SortByAge(pool);
    SortKeeps(pool);
    SortSorts(pool);
    forall a, b | 0 <= a < b < |sorted| ensures sorted[a].id != sorted[b].id {
      assert sorted[a] in pool && sorted[b] in pool && Older(sorted[a], sorted[b]);
      LessTotal(sorted[a].id, sorted[b].id);
    }
    forall e, s | e in sorted[..n] && s in pool && s !in sorted[..n] ensures Older(e, s) {
      var a :| 0 <= a < n && sorted[a] == e;
      var b :| 0 <= b < |sorted| && sorted[b] == s;
      FrontMember(sorted, n, b);
    }
  }

  // ---- The store ------------------------------------------------------------------------------

  /** Every stored memory is under its own id. */
  ghost predicate Keyed(items: map<string, Memory>) {
    forall id :: id in items ==> items[id].id == id
  }

  /** `all` lists the store, in any order. */
  ghost predicate Lists(all: seq<Memory>, items: map<string, Memory>) {
    DistinctIds(all) && (forall m :: m in all ==> m.id in items && items[m.id] == m) &&
    (forall id :: id in items ==> items[id] in all)
  }

  ghost predicate ListsLive(live: seq<Memory>, items: map<string, Memory>) {
    DistinctIds(live) && forall m :: m in live <==> m.id in items && items[m.id] == m && !m.deprecated
  }

  /** The live memories of a pool, by id. */
  function PoolIds(items: map<string, Memory>, g: Group): set<string> {
    set id | id in items && Counted(items[id], g)
  }

  /** The store after the memories `ids` were deprecated. */
  function Retire(items: map<string, Memory>, ids: set<string>): map<string, Memory> {
    map id | id in items :: if id in ids then items[id].(deprecated := true) else items[id]
  }

  /** `victims` are the oldest of one pool, as many as it is over its limit. */
  ghost predicate OldestOver(items: map<string, Memory>, g: Group, limit: nat, victims: set<string>) {
    var pool := PoolIds(items, g);
    && victims <= pool
    && |victims| == (if |pool| <= limit then 0 else |pool| - limit)
    && forall e, s :: e in victims && s in pool - victims ==> Older(items[e], items[s])
  }

  lemma EvictedAreOldest(live: seq<Memory>, items: map<string, Memory>, g: Group, limit: nat, evict: seq<Memory>)
    requires Keyed(items) && ListsLive(live, items) && EvictsOldest(Pool(live, g), limit, evict)
    ensures OldestOver(items, g, limit, Ids(evict))
  {
    PoolMembers(live, g);
    IdsCount(Pool(live, g));
    IdsCount(evict);
    forall id | id in PoolIds(items, g) ensures id in Ids(Pool(live, g)) {
      assert items[id] in Pool(live, g);
    }
    assert Ids(Pool(live, g)) == PoolIds(items, g);
    forall e, s | e in Ids(evict) && s in PoolIds(items, g) - Ids(evict) ensures Older(items[e], items[s]) {
      var m :| m in evict && m.id == e;
      assert m in live && items[s] in live;
    }
  }

  /** Which memories an eviction takes is settled by the store alone. */
  lemma EvictionDetermined(items: map<string, Memory>, g: Group, limit: nat, a: set<string>, b: set<string>)
    requires Keyed(items) && OldestOver(items, g, limit, a) && OldestOver(items, g, limit, b)
    ensures a == b
  {
    if x :| x in a && x !in b {
      SameSize(a, b, x);
      var y :| y in b && y !in a;
      LessTotal(items[x].id, items[y].id);
      assert Older(items[x], items[y]) && Older(items[y], items[x]);
    } else {
      SameSize(b, a, "");
    }
  }

  lemma SameSize(a: set<string>, b: set<string>, x: string)
    requires |a| == |b|
    ensures x in a && x !in b ==> exists y :: y in b && y !in a
    ensures b <= a ==> a == b
  {
    if b <= a {
      assert |a - b| == |a| - |b|;
      assert a == b + (a - b);
    }
  }

  method LiveOf(all: seq<Memory>, ghost items: map<string, Memory>) returns (live: seq<Memory>)
    requires Keyed(items) && Lists(all, items)
    ensures ListsLive(live, items)
  {
    live := [];
    for k := 0 to |all|
      invariant DistinctIds(live) && forall m :: m in live <==> m in all[..k] && !m.deprecated
    {
      if !all[k].deprecated {
        forall m | m in live ensures m.id != all[k].id {
          var j :| 0 <= j < k && all[j] == m;
        }
        live := live + [all[k]];
      }
      assert all[..k + 1] == all[..k] + [all[k]];
    }
    assert all[..|all|] == all;
  }

  /** The memories of one scope, as the store keeps them. */
  class MemoryPort {
    var items: map<string, Memory>

    constructor (items: map<string, Memory>)
      ensures this.items == items
    {
      this.items := items;
    }

    method Deprecate(id: string, fails: bool) returns (ok: bool)
      requires id in items
      modifies this
      ensures ok == !fails && items == if ok then Retire(old(items), {id}) else old(items)
    {
      if fails {
        return false;
      }
      items := items[id := items[id].(deprecated := true)];
      return true;
    }
  }

  /** What has been deprecated in each pool. */
  ghost predicate Evicting(items: map<string, Memory>, caps: Caps, victims: map<Group, set<string>>) {
    forall g :: g in victims ==> OldestOver(items, g, caps.Limit(g), victims[g])
  }

  ghost function AllVictims(victims: map<Group, set<string>>): set<string> {
    set g, id | g in victims && id in victims[g] :: id
  }

  lemma PoolsDisjoint(items: map<string, Memory>, caps: Caps, victims: map<Group, set<string>>, g: Group)
    requires Evicting(items, caps, victims) && g !in victims
    ensures AllVictims(victims) !! PoolIds(items, g)
  {
    forall id | id in AllVictims(victims) ensures id !in PoolIds(items, g) {
      var h :| h in victims && id in victims[h];
      assert OldestOver(items, h, caps.Limit(h), victims[h]);
    }
  }

  lemma RetireMore(items: map<string, Memory>, gone: set<string>, id: string)
    requires id in items
    ensures Retire(Retire(items, gone), {id}) == Retire(items, gone + {id})
  {
  }

  /** The store took every deprecation from number `from` up to number `to`. */
  ghost predicate Accepted(fails: nat -> bool, from: nat, to: nat) {
    from <= to && forall k: nat :: from <= k < to ==> !fails(k)
  }

  /** Deprecate the oldest of one pool, `gone0` being gone already. */
  method EvictPool(store: MemoryPort, live: seq<Memory>, g: Group, limit: nat, fails: nat -> bool, evicted0: nat,
                   ghost items0: map<string, Memory>, ghost gone0: set<string>)
    returns (evicted: nat, ok: bool, ghost victims: set<string>, ghost gone: set<string>)
    requires Keyed(items0) && ListsLive(live, items0) && store.items == Retire(items0, gone0)
    requires evicted0 == |gone0| && gone0 !! PoolIds(items0, g)
    modifies store
    ensures OldestOver(items0, g, limit, victims) && gone0 <= gone <= gone0 + victims &&
            (ok ==> gone == gone0 + victims)
    ensures Accepted(fails, evicted0, evicted) && (!ok ==> fails(evicted))
    ensures store.items == Retire(items0, gone) && evicted == |gone|
  {
    var pool := OverCap(live, g, limit);
    EvictedAreOldest(live, items0, g, limit, pool);
    evicted, gone, victims := evicted0, gone0, Ids(pool);
    evicted, ok, gone := DeprecateAll(store, pool, fails, evicted0, items0, gone0);
  }

  method DeprecateAll(store: MemoryPort, pool: seq<Memory>, fails: nat -> bool, evicted0: nat,
                      ghost items0: map<string, Memory>, ghost gone0: set<string>)
    returns (evicted: nat, ok: bool, ghost gone: set<string>)
    requires store.items == Retire(items0, gone0) && DistinctIds(pool) && Ids(pool) <= items0.Keys
    requires evicted0 == |gone0| && gone0 !! Ids(pool)
    modifies store
    ensures gone0 <= gone <= gone0 + Ids(pool) && (ok ==> gone == gone0 + Ids(pool))
    ensures Accepted(fails, evicted0, evicted) && (!ok ==> fails(evicted))
    ensures store.items == Retire(items0, gone) && evicted == |gone|
  {
    evicted, gone, ok := evicted0, gone0, true;
    for k := 0 to |pool|
      invariant GoneUpTo(gone0, pool, k, gone) && Accepted(fails, evicted0, evicted)
      invariant store.items == Retire(items0, gone) && evicted == |gone|
    {
      NextGone(gone0, pool, k, gone);
      NextAccepted(fails, evicted0, evicted);
      ok := store.Deprecate(pool[k].id, fails(evicted));
      if !ok {
        return;
      }
      RetireMore(items0, gone, pool[k].id);
      gone := gone + {pool[k].id};
      evicted := evicted + 1;
    }
    AllGone(gone0, pool, gone);
  }

  lemma NextAccepted(fails: nat -> bool, from: nat, to: nat)
    requires Accepted(fails, from, to)
    ensures !fails(to) ==> Accepted(fails, from, to + 1)
  {
  }

  lemma AllGone(gone0: set<string>, pool: seq<Memory>, gone: set<string>)
    requires GoneUpTo(gone0, pool, |pool|, gone)
    ensures gone == gone0 + Ids(pool)
  {
    assert pool[..|pool|] == pool;
  }

  ghost predicate GoneUpTo(gone0: set<string>, pool: seq<Memory>, k: nat, gone: set<string>) {
    k <= |pool| && gone == gone0 + Ids(pool[..k]) && gone <= gone0 + Ids(pool)
  }

  lemma NextGone(gone0: set<string>, pool: seq<Memory>, k: nat, gone: set<string>)
    requires DistinctIds(pool) && k < |pool| && GoneUpTo(gone0, pool, k, gone) && gone0 !! Ids(pool)
    ensures pool[k].id in Ids(pool) && pool[k].id !in gone && GoneUpTo(gone0, pool, k + 1, gone + {pool[k].id})
  {
    assert pool[..k + 1] == pool[..k] + [pool[k]];
    assert Ids(pool[..k + 1]) == Ids(pool[..k]) + {pool[k].id};
  }

  /** One pool more. */
  method EvictNext(store: MemoryPort, live: seq<Memory>, g: Group, caps: Caps, fails: nat -> bool, evicted0: nat,
                   ghost items0: map<string, Memory>, ghost victims0: map<Group, set<string>>, ghost gone0: set<string>)
    returns (evicted: nat, ok: bool, ghost victims: map<Group, set<string>>, ghost gone: set<string>)
    requires Keyed(items0) && ListsLive(live, items0) && store.items == Retire(items0, gone0)
    requires evicted0 == |gone0| && gone0 == AllVictims(victims0) && Evicting(items0, caps, victims0) && g !in victims0
    modifies store
    ensures Evicting(items0, caps, victims) && victims.Keys == victims0.Keys + {g}
    ensures gone <= AllVictims(victims) && (ok ==> gone == AllVictims(victims))
    ensures Accepted(fails, evicted0, evicted) && (!ok ==> fails(evicted))
    ensures store.items == Retire(items0, gone) && evicted == |gone|
  {
    PoolsDisjoint(items0, caps, victims0, g);
    ghost var taken;
    evicted, ok, taken, gone := EvictPool(store, live, g, caps.Limit(g), fails, evicted0, items0, gone0);
    MoreVictims(victims0, g, taken);
    victims := victims0[g := taken];
  }

  /** Bring every pool back under its cap. On success each pool lost exactly its oldest
      members over the cap; when a call fails, only those before it are gone. It succeeds
      unless the listing or a call fails. */
  method EnforceCaps(store: MemoryPort, caps: Caps, listing: Option<seq<Memory>>, fails: nat -> bool)
    returns (evicted: nat, ok: bool, ghost victims: map<Group, set<string>>, ghost gone: set<string>)
    requires Keyed(store.items) && (listing.Some? ==> Lists(listing.value, store.items))
    modifies store
    ensures ok ==> listing.Some? && (forall g :: g in victims) && gone == AllVictims(victims)
    ensures Accepted(fails, 0, evicted) && (!ok ==> listing.None? || fails(evicted))
    ensures Evicting(old(store.items), caps, victims) && gone <= AllVictims(victims)
    ensures store.items == Retire(old(store.items), gone) && evicted == |gone|
  {
    evicted, victims, gone := 0, map[], {};
    ghost var items0 := store.items;
    assert Retire(items0, {}) == items0;
    if listing.None? {
      return 0, false, victims, gone;
    }
    var live := LiveOf(listing.value, items0);
    var groups := [Facts, Insights, Summaries];
    for n := 0 to 3
      invariant Evicting(items0, caps, victims) && gone == AllVictims(victims) && Accepted(fails, 0, evicted)
      invariant forall h :: h in victims <==> h in groups[..n]
      invariant store.items == Retire(items0, gone) && evicted == |gone|
    {
      assert groups[..n + 1] == groups[..n] + [groups[n]];
      evicted, ok, victims, gone := EvictNext(store, live, groups[n], caps, fails, evicted, items0, victims, gone);
      if !ok {
        return;
      }
    }
    assert groups[..3] == groups;
    EveryGroup(groups, victims);
    ok := true;
  }

  lemma EveryGroup(groups: seq<Group>, victims: map<Group, set<string>>)
    requires groups == [Facts, Insights, Summaries] && forall h :: h in victims <==> h in groups
    ensures forall g :: g in victims
  {
    forall g: Group ensures g in victims {
      assert groups[0] == Facts && groups[1] == Insights && groups[2] == Summaries;
      match g
      case Facts => assert groups[0] in groups;
      case Insights => assert groups[1] in groups;
      case Summaries => assert groups[2] in groups;
    }
  }

  lemma MoreVictims(victims: map<Group, set<string>>, g: Group, taken: set<string>)
    requires g !in victims
    ensures AllVictims(victims[g := taken]) == AllVictims(victims) + taken
  {
    var more := victims[g := taken];
    forall id ensures id in AllVictims(more) <==> id in AllVictims(victims) + taken {
      if id in taken {
        assert more[g] == taken;
      }
      if h :| h in victims && id in victims[h] {
        assert more[h] == victims[h];
      }
    }
  }

  // ---- What the caps guarantee -------------------------------------------------------------------

  /** Main result: after a successful enforcement every pool holds the minimum of what it
      held and its cap, its survivors are the newest, and no other memory changed. */
  lemma CapsHold(items: map<string, Memory>, caps: Caps, victims: map<Group, set<string>>, g: Group)
    requires Keyed(items) && Evicting(items, caps, victims) && forall h :: h in victims
    ensures var after := Retire(items, AllVictims(victims));
            var was, now := PoolIds(items, g), PoolIds(after, g);
            now <= was && |now| == (if |was| <= caps.Limit(g) then |was| else caps.Limit(g)) &&
            (forall s, e :: s in now && e in was - now ==> Older(items[e], items[s])) &&
            (forall id :: id in items ==> after[id].(deprecated := items[id].deprecated) == items[id])
    ensures var after := Retire(items, AllVictims(victims));
            |PoolIds(items, g)| <= caps.Limit(g) ==>
              forall id :: id in items && CapGroupOf(items[id].kind) == g ==> after[id] == items[id]
  {
    var after, all := Retire(items, AllVictims(victims)), AllVictims(victims);
    assert OldestOver(items, g, caps.Limit(g), victims[g]);
    PoolAfter(items, caps, victims, g);
    assert |PoolIds(items, g) - victims[g]| == |PoolIds(items, g)| - |victims[g]|;
    if |PoolIds(items, g)| <= caps.Limit(g) {
      assert victims[g] == {};
    }
  }

  lemma PoolAfter(items: map<string, Memory>, caps: Caps, victims: map<Group, set<string>>, g: Group)
    requires Keyed(items) && Evicting(items, caps, victims) && g in victims
    ensures forall id :: id in items && CapGroupOf(items[id].kind) == g ==>
              (id in AllVictims(victims) <==> id in victims[g])
    ensures PoolIds(Retire(items, AllVictims(victims)), g) == PoolIds(items, g) - victims[g]
  {
    forall id | id in items && CapGroupOf(items[id].kind) == g ensures id in AllVictims(victims) <==> id in victims[g] {
      if id in AllVictims(victims) {
        var h :| h in victims && id in victims[h];
        assert OldestOver(items, h, caps.Limit(h), victims[h]);
        assert id in PoolIds(items, h);
      }
    }
  }

  /** A second enforcement evicts nothing. */
  lemma CapsSettled(items: map<string, Memory>, caps: Caps, victims: map<Group, set<string>>,
                    again: map<Group, set<string>>)
    requires Keyed(items) && Evicting(items, caps, victims) && forall h :: h in victims
    requires Evicting(Retire(items, AllVictims(victims)), caps, again)
    ensures AllVictims(again) == {}
  {
    forall g | g in again ensures again[g] == {} {
      CapsHold(items, caps, victims, g);
      assert OldestOver(Retire(items, AllVictims(victims)), g, caps.Limit(g), again[g]);
    }
  }
}
