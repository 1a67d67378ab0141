/** Which memories the caps take, told by kinds, creation times and ids alone
    (internal/dreaming/caps.go:15-127). */
module MemoryEvictions {
  import opened Provider
  import opened MemoryCaps

  /** `a` comes before `b`: it is a proper beginning of it, or smaller where they first differ. */
  ghost predicate Precedes(a: string, b: string) {
    exists k: nat :: ApartAt(a, b, k)
  }

  ghost predicate ApartAt(a: string, b: string, k: nat) {
    k <= |a| && k < |b| && a[..k] == b[..k] && (k == |a| || a[k] < b[k])
  }

  lemma {:induction false} LessMeans(a: string, b: string)
    ensures Less(a, b) <==> Precedes(a, b)
  {
    if a != "" && b != "" && a[0] == b[0] {
      LessMeans(a[1..], b[1..]);
      forall k: nat ensures ApartAt(a[1..], b[1..], k) <==> ApartAt(a, b, k + 1) {
        OneFurther(a, b, k);
      }
      if k: nat :| ApartAt(a, b, k) {
        assert k != 0;
        assert ApartAt(a[1..], b[1..], k - 1);
      }
      if k: nat :| ApartAt(a[1..], b[1..], k) {
        assert ApartAt(a, b, k + 1);
      }
    } else {
      assert Less(a, b) ==> ApartAt(a, b, 0);
      forall k: nat ensures ApartAt(a, b, k) ==> ApartAt(a, b, 0) {
        ApartAtOnce(a, b, k);
      }
    }
  }

  lemma ApartAtOnce(a: string, b: string, k: nat)
    ensures ApartAt(a, b, k) ==> ApartAt(a, b, 0) || (a != "" && b != "" && a[0] == b[0])
  {
    if ApartAt(a, b, k) && k > 0 {
      assert a[..k][0] == b[..k][0];
    }
  }

  lemma OneFurther(a: string, b: string, k: nat)
    requires a != "" && b != "" && a[0] == b[0]
    ensures ApartAt(a[1..], b[1..], k) <==> ApartAt(a, b, k + 1)
  {
    if k + 1 <= |a| && k + 1 < |b| {
      assert a[..k + 1] == [a[0]] + a[1..][..k] && b[..k + 1] == [b[0]] + b[1..][..k];
      assert a[..k + 1][1..] == a[1..][..k] && b[..k + 1][1..] == b[1..][..k];
    }
  }

  /** Memories of the two kinds are counted together: summaries alone, insights alone, and
      everything else. */
  ghost predicate Together(a: Kind, b: Kind) {
    a.Insight? == b.Insight? && a.Summary? == b.Summary?
  }

  ghost predicate CreatedBefore(a: Memory, b: Memory) {
    a.createdAt < b.createdAt || (a.createdAt == b.createdAt && Precedes(a.id, b.id))
  }

  lemma OlderMeans(a: Memory, b: Memory)
    ensures Older(a, b) <==> CreatedBefore(a, b)
  {
    LessMeans(a.id, b.id);
  }

  /** The live memories whose kind counts with the given one. */
  ghost function LiveWith(items: map<string, Memory>, k: Kind): set<string> {
    set id | id in items && !items[id].deprecated && Together(items[id].kind, k)
  }

  ghost function CapOf(caps: Caps, k: Kind): nat {
    if k.Insight? then caps.insights else if k.Summary? then caps.summaries else caps.facts
  }

  lemma PoolsByKind(items: map<string, Memory>, caps: Caps, k: Kind)
    ensures PoolIds(items, CapGroupOf(k)) == LiveWith(items, k) && caps.Limit(CapGroupOf(k)) == CapOf(caps, k)
  {
  }

  /** Main result: a successful enforcement leaves of each kind of memory as many live ones as
      there were, or as many as the cap allows; a memory it retired was created before every
      one of its kind that stays, ids deciding between equal times; and nothing but the
      deprecation of live memories happens to the store. */
  lemma EvictionsMean(items: map<string, Memory>, caps: Caps, victims: map<Group, set<string>>, k: Kind)
    requires Keyed(items) && Evicting(items, caps, victims) && forall g :: g in victims
    ensures var after := Retire(items, AllVictims(victims));
            var was, now, cap := LiveWith(items, k), LiveWith(after, k), CapOf(caps, k);
            now <= was && |now| == (if |was| <= cap then |was| else cap)
    ensures var after := Retire(items, AllVictims(victims));
            forall e, s :: e in LiveWith(items, k) - LiveWith(after, k) && s in LiveWith(after, k) ==>
              CreatedBefore(items[e], items[s])
    ensures var after := Retire(items, AllVictims(victims));
            after.Keys == items.Keys &&
            forall id :: id in items ==>
              after[id] == items[id] || (!items[id].deprecated && after[id] == items[id].(deprecated := true))
  {
    var after := Retire(items, AllVictims(victims));
    CapsHold(items, caps, victims, CapGroupOf(k));
    PoolsByKind(items, caps, k);
    PoolsByKind(after, caps, k);
    forall e, s | e in LiveWith(items, k) - LiveWith(after, k) && s in LiveWith(after, k)
      ensures CreatedBefore(items[e], items[s])
    {
      OlderMeans(items[e], items[s]);
    }
    forall id | id in items
      ensures after[id] == items[id] || (!items[id].deprecated && after[id] == items[id].(deprecated := true))
    {
      if id in AllVictims(victims) {
        var g :| g in victims && id in victims[g];
        assert OldestOver(items, g, caps.Limit(g), victims[g]);
      }
    }
  }
}
