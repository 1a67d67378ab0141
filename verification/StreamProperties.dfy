/** The assembled message loses and repeats nothing of the stream
    (internal/agent/loop.go:1015-1166). */
module StreamProperties {
  import opened Provider
  import opened StreamAssembly

  ghost predicate LegalUpTo(events: seq<Event>, n: nat) {
    n <= |events| && forall k :: 0 <= k < n ==> Legal(events, k)
  }

  // ---- Fragments -----------------------------------------------------------------------

  /** The contents of the blocks closed at index i by the first n events, joined in closing
      order. */
  function ClosedText(events: seq<Event>, n: nat, i: int): string
    requires n <= |events|
  {
    if n == 0 then "" else
    var e, before := events[n - 1], ClosedText(events, n - 1, i);
    if e.BlockStop? && e.index == i && OpenAt(events, n - 1, i).Some?
    then before + Deltas(events, i, OpenAt(events, n - 1, i).value + 1, n - 1)
    else before
  }

  /** The content so far of the block open at index i. */
  function OpenText(events: seq<Event>, n: nat, i: int): string
    requires n <= |events|
  {
    match OpenAt(events, n, i)
    case None => ""
    case Some(s) => Deltas(events, i, s + 1, n)
  }

  /** Main result: the fragments that arrived for an index, joined in arrival order, are the
      contents of that index's blocks, one after the other. */
  lemma {:induction false} FragmentsConserved(events: seq<Event>, n: nat, i: int)
    requires LegalUpTo(events, n)
    ensures Deltas(events, i, 0, n) == ClosedText(events, n, i) + OpenText(events, n, i)
  {
    if n > 0 {
      FragmentsConserved(events, n - 1, i);
      assert Legal(events, n - 1);
    }
  }

  // ---- Blocks -----------------------------------------------------------------------------

  predicate StartsBlock(e: Event) { e.BlockStart? && e.block.Some? }

  predicate StopsIndex(e: Event, i: int) { e.BlockStop? && e.index == i }

  /** The block started by event s is open after n events. */
  predicate OpenSince(events: seq<Event>, n: nat, s: nat)
    requires s < |events| && n <= |events| && StartsBlock(events[s])
  {
    OpenAt(events, n, events[s].index) == Some(s)
  }

  /** The first event from k on that closes the block started by event s, or the end. */
  function EndFrom(events: seq<Event>, s: nat, k: nat): (t: nat)
    requires s < k <= |events| && StartsBlock(events[s])
    ensures s < t <= |events|
    decreases |events| - k
  {
    if k == |events| || StopsIndex(events[k], events[s].index) then k else EndFrom(events, s, k + 1)
  }

  /** The block an event starts, with everything that belongs to it. */
  function BlockFrom(events: seq<Event>, s: nat, decode: Decoder): Block
    requires s < |events| && StartsBlock(events[s])
  {
    BlockOver(events, s, EndFrom(events, s, s + 1), decode)
  }

  lemma {:induction false} EndSkips(events: seq<Event>, s: nat, k: nat, n: nat)
    requires s < k <= n <= |events| && StartsBlock(events[s])
    requires forall j :: k <= j < n ==> !StopsIndex(events[j], events[s].index)
    ensures EndFrom(events, s, k) == EndFrom(events, s, n)
    decreases n - k
  {
    if k < n {
      EndSkips(events, s, k + 1, n);
    }
  }

  lemma {:induction false} OpenUnstopped(events: seq<Event>, n: nat, s: nat)
    requires s < n <= |events| && StartsBlock(events[s]) && OpenSince(events, n, s)
    ensures forall j :: s < j < n ==> !StopsIndex(events[j], events[s].index)
  {
    if n > s + 1 {
      OpenUnstopped(events, n - 1, s);
    }
  }

  /** A block that is open up to its stop event, or up to the end, is the block of its start. */
  lemma BlockFromIs(events: seq<Event>, n: nat, s: nat, decode: Decoder)
    requires s < n <= |events| && StartsBlock(events[s]) && OpenSince(events, n, s)
    requires n < |events| ==> StopsIndex(events[n], events[s].index)
    ensures BlockOver(events, s, n, decode) == BlockFrom(events, s, decode)
  {
    OpenUnstopped(events, n, s);
    EndSkips(events, s, s + 1, n);
  }

  /** The starts of the blocks closed by the first n events, in closing order. */
  function ClosedStarts(events: seq<Event>, n: nat): seq<nat>
    requires n <= |events|
  {
    if n == 0 then [] else
    var e, before := events[n - 1], ClosedStarts(events, n - 1);
    if e.BlockStop? && OpenAt(events, n - 1, e.index).Some? then before + [OpenAt(events, n - 1, e.index).value]
    else before
  }

  ghost predicate AllDifferent(starts: seq<nat>) {
    forall a, b :: 0 <= a < b < |starts| ==> starts[a] != starts[b]
  }

  /** The blocks of these starts. */
  ghost predicate BlocksOf(events: seq<Event>, starts: seq<nat>, blocks: seq<Block>, decode: Decoder) {
    |blocks| == |starts| &&
    forall k :: 0 <= k < |starts| ==>
      starts[k] < |events| && StartsBlock(events[starts[k]]) && blocks[k] == BlockFrom(events, starts[k], decode)
  }

  lemma OpenNext(events: seq<Event>, n: nat, s: nat)
    requires s < n < |events| && StartsBlock(events[s]) && Legal(events, n)
    ensures OpenSince(events, n + 1, s) <==> OpenSince(events, n, s) && !StopsIndex(events[n], events[s].index)
  {
  }

  /** Closed are exactly the started blocks that are no longer open, each once. */
  lemma {:induction false} ClosedOnce(events: seq<Event>, n: nat)
    requires LegalUpTo(events, n)
    ensures forall s: nat :: s in ClosedStarts(events, n) <==>
                             s < n && StartsBlock(events[s]) && !OpenSince(events, n, s)
    ensures AllDifferent(ClosedStarts(events, n))
  {
    if n > 0 {
      var m := n - 1;
      ClosedOnce(events, m);
      assert Legal(events, m);
      forall s: nat
        ensures s in ClosedStarts(events, n) <==> s < n && StartsBlock(events[s]) && !OpenSince(events, n, s) {
        if s < m && StartsBlock(events[s]) {
          OpenNext(events, m, s);
        }
      }
    }
  }

  lemma {:induction false} ClosedAre(events: seq<Event>, n: nat, decode: Decoder)
    requires n <= |events|
    ensures BlocksOf(events, ClosedStarts(events, n), ClosedBlocks(events, n, decode), decode)
  {
    if n > 0 {
      ClosedAre(events, n - 1, decode);
      var e := events[n - 1];
      if e.BlockStop? && OpenAt(events, n - 1, e.index).Some? {
        BlockFromIs(events, n - 1, OpenAt(events, n - 1, e.index).value, decode);
      }
    }
  }

  /** The starts of the blocks open at the end, by index. */
  function OpenStarts(events: seq<Event>, idxs: seq<int>): (starts: seq<nat>)
    requires AllOpen(events, idxs)
    ensures |starts| == |idxs|
  {
    if idxs == [] then [] else
    OpenStarts(events, idxs[..|idxs| - 1]) + [OpenAt(events, |events|, idxs[|idxs| - 1]).value]
  }

  lemma {:induction false} OpenAre(events: seq<Event>, idxs: seq<int>, decode: Decoder)
    requires AllOpen(events, idxs)
    ensures BlocksOf(events, OpenStarts(events, idxs), OpenBlocks(events, idxs, decode), decode)
    ensures forall k :: 0 <= k < |idxs| ==> OpenAt(events, |events|, idxs[k]) == Some(OpenStarts(events, idxs)[k])
  {
    if idxs != [] {
      OpenAre(events, idxs[..|idxs| - 1], decode);
      var i := idxs[|idxs| - 1];
      assert i in idxs;
      BlockFromIs(events, |events|, OpenAt(events, |events|, i).value, decode);
    }
  }

  /** Main result: every block the stream started is in the message exactly once, whole, and
      nothing else is: the closed ones in closing order, then the open ones by index. */
  lemma MessageHasEveryBlock(events: seq<Event>, idxs: seq<int>, decode: Decoder) returns (starts: seq<nat>)
    requires LegalUpTo(events, |events|) && OpenInOrder(events, idxs)
    ensures BlocksOf(events, starts, ClosedBlocks(events, |events|, decode) + OpenBlocks(events, idxs, decode), decode)
    ensures AllDifferent(starts) && forall s: nat :: s in starts <==> s < |events| && StartsBlock(events[s])
  {
    var closed, still := ClosedStarts(events, |events|), OpenStarts(events, idxs);
    starts := closed + still;
    ClosedOnce(events, |events|);
    ClosedAre(events, |events|, decode);
    OpenAre(events, idxs, decode);
    StillOpen(events, idxs, decode);
    JoinBlocks(events, closed, ClosedBlocks(events, |events|, decode), still, OpenBlocks(events, idxs, decode), decode);
    JoinDifferent(closed, still);
    forall s: nat ensures s in starts <==> s < |events| && StartsBlock(events[s]) {
      assert s in starts <==> s in closed || s in still;
    }
  }

  lemma JoinBlocks(events: seq<Event>, a: seq<nat>, blocksA: seq<Block>, b: seq<nat>, blocksB: seq<Block>,
                   decode: Decoder)
    requires BlocksOf(events, a, blocksA, decode) && BlocksOf(events, b, blocksB, decode)
    ensures BlocksOf(events, a + b, blocksA + blocksB, decode)
  {
  }

  lemma JoinDifferent(a: seq<nat>, b: seq<nat>)
    requires AllDifferent(a) && AllDifferent(b) && forall s :: s in a ==> s !in b
    ensures AllDifferent(a + b)
  {
    forall i, j | 0 <= i < j < |a + b| ensures (a + b)[i] != (a + b)[j] {
      if i < |a| <= j {
        assert a[i] in a && b[j - |a|] in b;
      }
    }
  }

  lemma StillOpen(events: seq<Event>, idxs: seq<int>, decode: Decoder)
    requires OpenInOrder(events, idxs)
    ensures AllDifferent(OpenStarts(events, idxs))
    ensures forall s: nat :: s in OpenStarts(events, idxs) <==>
                             s < |events| && StartsBlock(events[s]) && OpenSince(events, |events|, s)
  {
    var still := OpenStarts(events, idxs);
    OpenAre(events, idxs, decode);
    forall s: nat ensures s in still <==> s < |events| && StartsBlock(events[s]) && OpenSince(events, |events|, s) {
      if s < |events| && StartsBlock(events[s]) && OpenSince(events, |events|, s) {
        assert events[s].index in idxs;
        var k :| 0 <= k < |idxs| && idxs[k] == events[s].index;
        assert still[k] == s;
      }
    }
  }

  function CallIds(calls: seq<Call>): seq<string> {
    seq(|calls|, k requires 0 <= k < |calls| => calls[k].id)
  }

  /** The calls are exactly the tool_use blocks of the message, in order. */
  lemma {:induction false} CallsMatchBlocks(content: seq<Block>)
    ensures CallIds(CallsOf(content)) == UseIds(content)
  {
    if content != [] {
      CallsMatchBlocks(content[..|content| - 1]);
    }
  }

  // ---- Terminal metadata -----------------------------------------------------------------------

  /** No usage report is ever lost to a later, smaller one. */
  lemma {:induction false} UsageNeverShrinks(events: seq<Event>, k: nat, n: nat)
    requires k < n <= |events| && events[k].MessageStop? && events[k].usage.Some?
    ensures var u := EndAfter(events, n).usage; var r := events[k].usage.value;
            u.Some? && u.value.input >= r.input && u.value.output >= r.output && u.value.cacheRead >= r.cacheRead &&
            u.value.cacheWrite >= r.cacheWrite && u.value.reasoning >= r.reasoning
  {
    if k < n - 1 {
      UsageNeverShrinks(events, k, n - 1);
    }
  }

  /** The stop reason is the last one reported; empty reports do not erase it. */
  lemma {:induction false} StopIsLastReported(events: seq<Event>, k: nat, n: nat)
    requires k < n <= |events| && events[k].MessageStop? && events[k].stop != StopUnknown
    requires forall j :: k < j < n && events[j].MessageStop? ==> events[j].stop == StopUnknown
    ensures EndAfter(events, n).stop == events[k].stop
  {
    if k < n - 1 {
      StopIsLastReported(events, k, n - 1);
    }
  }
}
