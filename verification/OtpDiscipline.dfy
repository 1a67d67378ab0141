/** When the throttler answers as an unpruned log would, exactly, and a run on which it does
    not (internal/identity/otpthrottle.go:73-117). */
module OtpDiscipline {
  import opened OtpThrottle
  import opened OtpProperties

  // ---- The discipline is exact ----------------------------------------------------------------------

  /** Whatever safe calls follow, every key is answered as the log would. */
  ghost predicate Reliable(run: seq<Call>) {
    forall more, k, now :: Timed(run + more) && Careful(run + more, |run|) && Ended(run + more, now) ==>
      Agrees(run + more, k, now)
  }

  /** Failures at one moment. */
  function Burst(k: string, now: int, n: nat): (calls: seq<Call>)
    ensures |calls| == n
  {
    seq(n, _ => At(Fail(k), now))
  }

  function Copies(now: int, n: nat): (times: seq<int>)
    ensures |times| == n
  {
    seq(n, _ => now)
  }

  lemma {:induction false} CopiesRecent(now: int, n: nat)
    ensures Recent(Copies(now, n), now, VERIFY_WINDOW) == Copies(now, n)
  {
    if n > 0 {
      CopiesRecent(now, n - 1);
      assert Copies(now, n)[..n - 1] == Copies(now, n - 1);
    }
  }

  lemma CopiesNext(now: int, n: nat)
    ensures Copies(now, n) + [now] == Copies(now, n + 1)
  {
  }

  /** A failure that fits, for a key without a lock. */
  lemma PlainFail(s: State, k: string, now: int)
    requires LockSound(s, k, now) && k !in s.locked && (k in s.verify || |s.verify| < MAX_KEYS)
    requires Recent(Get(s.verify, k), now, VERIFY_WINDOW) != [] || |Pruned(s.verify, k, now, VERIFY_WINDOW)| < MAX_KEYS
    ensures Safe(s, k, now) && Admitted(s, k, now).ok
    ensures var s' := FailedState(s, k, now);
            var times := Recent(Get(s.verify, k), now, VERIFY_WINDOW) + [now];
            Get(s'.verify, k) == times && k in s'.verify &&
            (k in s'.locked <==> |times| >= MAX_VERIFY_FAILURES) &&
            (k in s'.locked ==> s'.locked[k] == now + VERIFY_LOCKOUT)
  {
    FailedList(s, k, now, now);
  }

  /** What a key looks like while failures are repeated at one moment after its lock went. */
  ghost predicate Repeating(run: seq<Call>, k: string, now: int, log: seq<int>, n: nat) {
    var s := After(run);
    && Timed(run) && run != [] && Clock(run) == now && k !in s.locked && Get(s.verify, k) == Copies(now, n)
    && (n == 0 ==> |s.verify| < MAX_KEYS) && FailuresOf(run, k) == log + Copies(now, n)
  }

  lemma TimedMore(run: seq<Call>, c: Call)
    requires Timed(run) && Ended(run, c.now)
    ensures Timed(run + [c]) && Clock(run + [c]) == c.now
  {
  }

  lemma AfterMore(run: seq<Call>, c: Call, k: string)
    ensures After(run + [c]) == Next(After(run), c)
    ensures FailuresOf(run + [c], k) == NextLog(After(run), k, FailuresOf(run, k), c)
  {
    assert (run + [c])[..|run|] == run;
  }

  lemma FailMore(run: seq<Call>, k: string, now: int)
    requires Timed(run) && Ended(run, now)
    ensures var more := run + [At(Fail(k), now)];
            Timed(more) && Clock(more) == now && After(more) == FailedState(After(run), k, now) &&
            FailuresOf(more, k) ==
            if Admitted(After(run), k, now).ok then FailuresOf(run, k) + [now] else FailuresOf(run, k)
  {
    TimedMore(run, At(Fail(k), now));
    AfterMore(run, At(Fail(k), now), k);
  }

  lemma RepeatOnce(run: seq<Call>, k: string, now: int, log: seq<int>, n: nat)
    requires Repeating(run, k, now, log, n) && n + 1 < MAX_VERIFY_FAILURES
    ensures Repeating(run + [At(Fail(k), now)], k, now, log, n + 1) && Safe(After(run), k, now)
  {
    FailMore(run, k, now);
    AlwaysSound(run, k);
    CopiesNext(now, n);
    RepeatedFail(After(run), k, now, n);
    assert log + Copies(now, n) + [now] == log + Copies(now, n + 1);
  }

  lemma RepeatedFail(s: State, k: string, now: int, n: nat)
    requires LockSound(s, k, now) && k !in s.locked && Get(s.verify, k) == Copies(now, n)
    requires (n == 0 ==> |s.verify| < MAX_KEYS) && n + 1 < MAX_VERIFY_FAILURES
    ensures Safe(s, k, now) && Admitted(s, k, now).ok
    ensures var s' := FailedState(s, k, now); k !in s'.locked && Get(s'.verify, k) == Copies(now, n + 1)
  {
    CopiesRecent(now, n);
    CopiesNext(now, n);
    if n == 0 {
      FewerKeys(Pruned(s.verify, k, now, VERIFY_WINDOW), s.verify);
    }
    PlainFail(s, k, now);
  }

  lemma CarefulMore(run: seq<Call>, n: nat, c: Call)
    requires Careful(run, n) && (c.op.Fail? ==> Safe(After(run), c.op.k, c.now))
    ensures Careful(run + [c], n)
  {
    var more := run + [c];
    forall m | n <= m < |more| ensures SafeAt(more, m) {
      assert more[..m] == run[..m];
      if m < |run| {
        assert SafeAt(run, m);
      } else {
        assert run[..m] == run;
      }
    }
  }

  /** The key after n repetitions, all calls from `from` on being careful. */
  ghost function Stage(k: string, now: int, log: seq<int>, from: nat): (seq<Call>, nat) -> bool {
    (run: seq<Call>, n: nat) => Repeating(run, k, now, log, n) && Careful(run, from)
  }

  lemma BurstNext(run: seq<Call>, k: string, now: int, n: nat)
    ensures run + Burst(k, now, n + 1) == run + Burst(k, now, n) + [At(Fail(k), now)]
  {
  }

  /** What one more failure keeps holds after a burst. */
  lemma {:induction false} RepeatAll(run: seq<Call>, k: string, now: int, n: nat, stage: (seq<Call>, nat) -> bool)
    requires stage(run, 0) && n < MAX_VERIFY_FAILURES
    requires forall before, m: nat ::
      stage(before, m) && m + 1 < MAX_VERIFY_FAILURES ==> stage(before + [At(Fail(k), now)], m + 1)
    ensures stage(run + Burst(k, now, n), n)
  {
    if n == 0 {
      assert run + Burst(k, now, 0) == run;
    } else {
      RepeatAll(run, k, now, n - 1, stage);
      BurstNext(run, k, now, n - 1);
    }
  }

  lemma Repeated(run: seq<Call>, k: string, now: int, log: seq<int>, n: nat, from: nat)
    requires Repeating(run, k, now, log, 0) && n < MAX_VERIFY_FAILURES && Careful(run, from)
    ensures Repeating(run + Burst(k, now, n), k, now, log, n) && Careful(run + Burst(k, now, n), from)
  {
    var stage := Stage(k, now, log, from);
    forall before, m: nat | stage(before, m) && m + 1 < MAX_VERIFY_FAILURES
      ensures stage(before + [At(Fail(k), now)], m + 1)
    {
      RepeatOnce(before, k, now, log, m);
      CarefulMore(before, from, At(Fail(k), now));
    }
    RepeatAll(run, k, now, n, stage);
  }

  /** What an unsafe failure leaves: its key is locked from an earlier one, and is short of a
      full set. */
  lemma UnsafeLeaves(s: State, k: string, log: seq<int>, now: int)
    requires Mirrors(s, k, log, now) && LockSound(s, k, now) && !Safe(s, k, now)
    ensures var s' := FailedState(s, k, now);
            Admitted(s, k, now).ok && k in s'.locked && k in s'.verify && s'.locked[k] == Last(log) + VERIFY_LOCKOUT &&
            Full(log) && Last(log) < now && |Recent(log, now, VERIFY_WINDOW)| + 1 < MAX_VERIFY_FAILURES
  {
    FailedList(s, k, now, now);
    AdmittedMirrors(s, k, log, now);
  }

  /** The checked key after its lock ran out. */
  lemma LockRunsOut(s: State, k: string, now: int)
    requires k in s.locked && s.locked[k] <= now && k in s.verify && Small(s)
    ensures var s' := Checked(s, k, now);
            k !in s'.locked && Get(s'.verify, k) == [] && |s'.verify| < MAX_KEYS
  {
    CheckedDrops(s, k, now);
    OneKeyLess(s.verify, k);
  }

  lemma CheckedDrops(s: State, k: string, now: int)
    requires k in s.locked && s.locked[k] <= now
    ensures Checked(s, k, now).verify == s.verify - {k} && Checked(s, k, now).locked == s.locked - {k}
  {
    assert s.verify - {k} - {k} == s.verify - {k};
  }

  lemma OneKeyLess(m: Times, k: string)
    requires k in m
    ensures |m - {k}| == |m| - 1
  {
    assert m.Keys == (m - {k}).Keys + {k};
  }

  lemma ShortOfSet(log: seq<int>, now: int, later: int)
    requires UpTo(log, now) && now <= later < now + VERIFY_WINDOW &&
             |Recent(log, now, VERIFY_WINDOW)| + 1 < MAX_VERIFY_FAILURES
    ensures 0 < |Recent(log + [now], later, VERIFY_WINDOW)| < MAX_VERIFY_FAILURES
  {
    RecentNext(log, later, VERIFY_WINDOW, now);
    RecentTwice(log, now, later, VERIFY_WINDOW);
    RecentAmong(log, now, VERIFY_WINDOW);
    RecentUpTo(log, now, now, VERIFY_WINDOW);
    RecentUpTo(Recent(log, now, VERIFY_WINDOW), now, later, VERIFY_WINDOW);
  }

  lemma {:induction false} FilledUp(log: seq<int>, now: int, n: nat)
    ensures Recent(log + Copies(now, n), now, VERIFY_WINDOW) == Recent(log, now, VERIFY_WINDOW) + Copies(now, n)
  {
    if n == 0 {
      assert log + Copies(now, 0) == log;
      assert Recent(log, now, VERIFY_WINDOW) + Copies(now, 0) == Recent(log, now, VERIFY_WINDOW);
    } else {
      FilledUp(log, now, n - 1);
      CopiesNext(now, n - 1);
      assert log + Copies(now, n) == log + Copies(now, n - 1) + [now];
      RecentNext(log + Copies(now, n - 1), now, VERIFY_WINDOW, now);
      assert Recent(log, now, VERIFY_WINDOW) + Copies(now, n) ==
               Recent(log, now, VERIFY_WINDOW) + Copies(now, n - 1) + [now];
    }
  }

  /** Once the log is full at this moment it locks the key, while the state holds no lock. */
  lemma Disagree(run: seq<Call>, k: string, now: int, log: seq<int>, n: nat)
    requires Repeating(run, k, now, log, n) && n > 0
    requires |Recent(log, now, VERIFY_WINDOW)| + n == MAX_VERIFY_FAILURES
    ensures CheckAnswer(After(run), k, now).ok && !LogAnswer(FailuresOf(run, k), now).ok
  {
    LengthGuardUnreachable(run, k, now);
    FilledUp(log, now, n);
    var full := log + Copies(now, n);
    assert Last(full) == now;
  }

  function Later(a: int, b: int): int { if a < b then b else a }

  /** The last call was a failure of the key under a lock it did not renew; `log` is what came
      before. */
  ghost predicate Struck(run: seq<Call>, k: string, log: seq<int>) {
    var s := After(run);
    && run != [] && Timed(run) && FailuresOf(run, k) == log + [Clock(run)] && UpTo(log, Clock(run))
    && k in s.locked && s.locked[k] == Last(log) + VERIFY_LOCKOUT && k in s.verify && Small(s)
    && Last(log) < Clock(run) && |Recent(log, Clock(run), VERIFY_WINDOW)| + 1 < MAX_VERIFY_FAILURES
  }

  /** What an unsafe last failure leaves of the run. */
  lemma UnsafeFacts(run: seq<Call>, k: string) returns (log: seq<int>)
    requires run != [] && Timed(run) && Disciplined(run[..|run| - 1])
    requires run[|run| - 1].op == Fail(k) && !SafeAt(run, |run| - 1)
    ensures log == FailuresOf(run[..|run| - 1], k) && Struck(run, k, log)
  {
    var front, c := run[..|run| - 1], run[|run| - 1];
    log := FailuresOf(front, k);
    assert front != [];
    MirrorsRun(front, k);
    AlwaysSound(front, k);
    MirrorsLater(After(front), k, log, Clock(front), c.now);
    UnsafeLeaves(After(front), k, log, c.now);
    assert run == front + [c];
    AfterMore(front, c, k);
    AlwaysSound(run, k);
  }

  /** Safe calls follow, and then the log locks the key and the code does not. */
  ghost predicate Forgets(run: seq<Call>, more: seq<Call>, k: string, now: int) {
    && Timed(run + more) && Careful(run + more, |run|) && Ended(run + more, now)
    && CheckAnswer(After(run + more), k, now).ok && !LogAnswer(FailuresOf(run + more, k), now).ok
  }

  /** When the lock ran out the key's log is short of a full set but not empty. */
  lemma StruckForgets(run: seq<Call>, k: string, log: seq<int>, now: int) returns (more: seq<Call>)
    requires Struck(run, k, log) && now == Later(Clock(run), Last(log) + VERIFY_LOCKOUT)
    ensures Forgets(run, more, k, now)
  {
    ShortOfSet(log, Clock(run), now);
    more := Unlocking(run, k, log + [Clock(run)], now);
  }

  /** The last call is the first one that breaks the discipline. */
  ghost predicate Strikes(run: seq<Call>, k: string) {
    && run != [] && Timed(run) && Disciplined(run[..|run| - 1])
    && run[|run| - 1].op == Fail(k) && !SafeAt(run, |run| - 1)
  }

  lemma StrikesStruck(run: seq<Call>, k: string) returns (log: seq<int>)
    requires Strikes(run, k)
    ensures log == FailuresOf(run[..|run| - 1], k) && Struck(run, k, log)
  {
    log := UnsafeFacts(run, k);
  }

  /** An unsafe failure is forgotten: once its lock has run out, a check and enough safe
      failures make the log lock the key while the code does not. */
  lemma UnsafeForgets(run: seq<Call>, k: string) returns (more: seq<Call>, now: int, log: seq<int>)
    requires Strikes(run, k)
    ensures Forgets(run, more, k, now)
    ensures log == FailuresOf(run[..|run| - 1], k) && now == Later(Clock(run), Last(log) + VERIFY_LOCKOUT)
  {
    log := StrikesStruck(run, k);
    now := Later(Clock(run), Last(log) + VERIFY_LOCKOUT);
    more := StruckForgets(run, k, log, now);
  }

  lemma Unlocking(run: seq<Call>, k: string, log: seq<int>, now: int) returns (more: seq<Call>)
    requires run != [] && Timed(run) && Clock(run) <= now && FailuresOf(run, k) == log
    requires var s := After(run); k in s.locked && s.locked[k] <= now && k in s.verify && Small(s)
    requires 0 < |Recent(log, now, VERIFY_WINDOW)| < MAX_VERIFY_FAILURES
    ensures Forgets(run, more, k, now)
  {
    var c, n := At(Check(k), now), MAX_VERIFY_FAILURES - |Recent(log, now, VERIFY_WINDOW)|;
    CheckFirst(run, k, log, now);
    CarefulMore(run, |run|, c);
    Repeated(run + [c], k, now, log, n, |run|);
    more := [c] + Burst(k, now, n);
    assert run + more == run + [c] + Burst(k, now, n);
    Disagree(run + more, k, now, log, n);
  }

  lemma CheckFirst(run: seq<Call>, k: string, log: seq<int>, now: int)
    requires run != [] && Timed(run) && Clock(run) <= now && FailuresOf(run, k) == log
    requires var s := After(run); k in s.locked && s.locked[k] <= now && k in s.verify && Small(s)
    ensures Repeating(run + [At(Check(k), now)], k, now, log, 0)
  {
    var c := At(Check(k), now);
    TimedMore(run, c);
    AfterMore(run, c, k);
    LockRunsOut(After(run), k, now);
    assert log + Copies(now, 0) == log && Copies(now, 0) == [];
  }

  lemma CarefulPrefix(run: seq<Call>, n: nat, more: seq<Call>)
    requires n <= |run| && Disciplined(run) && Careful(run[..n] + more, n)
    ensures Disciplined(run[..n] + more)
  {
    var all := run[..n] + more;
    forall m | 0 <= m < |all| ensures SafeAt(all, m) {
      if m < n {
        assert all[..m] == run[..m] && SafeAt(run, m);
      }
    }
  }

  /** Main result: the discipline is exact. CheckVerify answers as the unpruned log would, at
      every moment of the run and whatever safe calls might follow, if and only if every
      failure of the run finds no lock on its key or completes a set. */
  lemma ExactDiscipline(run: seq<Call>)
    requires Timed(run)
    ensures Disciplined(run) <==> forall n :: 0 <= n <= |run| ==> Reliable(run[..n])
  {
    if Disciplined(run) {
      forall n | 0 <= n <= |run| ensures Reliable(run[..n]) {
        DisciplinedReliable(run, n);
      }
    } else {
      var n := FirstUnsafe(run, |run|);
      UnsafeUnreliable(run, n);
    }
  }

  lemma DisciplinedReliable(run: seq<Call>, n: nat)
    requires Timed(run) && Disciplined(run) && n <= |run|
    ensures Reliable(run[..n])
  {
    forall more, k, now | Timed(run[..n] + more) && Careful(run[..n] + more, |run[..n]|) && Ended(run[..n] + more, now)
      ensures Agrees(run[..n] + more, k, now)
    {
      CarefulPrefix(run, n, more);
      ChecksAsLogged(run[..n] + more, k, now);
    }
  }

  lemma {:induction false} FirstUnsafe(run: seq<Call>, n: nat) returns (m: nat)
    requires n <= |run| && exists j :: 0 <= j < n && !SafeAt(run, j)
    ensures m < n && !SafeAt(run, m) && forall j :: 0 <= j < m ==> SafeAt(run, j)
  {
    if exists j :: 0 <= j < n - 1 && !SafeAt(run, j) {
      m := FirstUnsafe(run, n - 1);
    } else {
      m := n - 1;
    }
  }

  lemma UnsafeUnreliable(run: seq<Call>, n: nat)
    requires Timed(run) && n < |run| && !SafeAt(run, n) && forall j :: 0 <= j < n ==> SafeAt(run, j)
    ensures !Reliable(run[..n + 1])
  {
    var upTo := run[..n + 1];
    assert upTo[..|upTo| - 1] == run[..n];
    forall j | 0 <= j < n ensures SafeAt(run[..n], j) {
      assert run[..n][..j] == run[..j] && SafeAt(run, j);
    }
    assert !SafeAt(upTo, n) by {
      assert upTo[..n] == run[..n];
    }
    var more, now, _ := UnsafeForgets(upTo, run[n].op.k);
    assert !Agrees(upTo + more, run[n].op.k, now);
  }

  // ---- The callers' order, and a run that breaks it ------------------------------------------------

  /** Every failure directly follows an allowed check of its key. */
  ghost predicate DirectlyChecked(run: seq<Call>) {
    forall n :: 0 <= n < |run| && run[n].op.Fail? ==> CheckedBefore(run, n)
  }

  ghost predicate CheckedBefore(run: seq<Call>, n: nat)
    requires n < |run| && run[n].op.Fail?
  {
    n > 0 && run[n - 1].op == Check(run[n].op.k) && CheckAnswer(After(run[..n - 1]), run[n].op.k, run[n - 1].now).ok
  }

  /** Main result for callers that check first: no failure is ever forgotten, and every check
      is answered as the unpruned log would. */
  lemma DirectChecksAsLogged(run: seq<Call>, k: string, now: int)
    requires Timed(run) && DirectlyChecked(run) && Ended(run, now)
    ensures Disciplined(run) && Agrees(run, k, now)
  {
    forall n | 0 <= n < |run| ensures SafeAt(run, n) {
      if run[n].op.Fail? {
        assert CheckedBefore(run, n);
        DirectSafe(run, n);
      }
    }
    ChecksAsLogged(run, k, now);
  }

  lemma DirectSafe(run: seq<Call>, n: nat)
    requires n < |run| && run[n].op.Fail? && CheckedBefore(run, n)
    ensures SafeAt(run, n)
  {
    var k := run[n].op.k;
    assert run[..n] == run[..n - 1] + [run[n - 1]];
    AfterMore(run[..n - 1], run[n - 1], k);
    CheckUnlocks(After(run[..n - 1]), k, run[n - 1].now);
    UnlockedSafe(After(run[..n]), k, run[n].now);
  }

  /** An allowed check leaves no lock on its key. */
  lemma CheckUnlocks(s: State, k: string, now: int)
    requires CheckAnswer(s, k, now).ok
    ensures k !in Checked(s, k, now).locked
  {
  }

  lemma UnlockedSafe(s: State, k: string, now: int)
    requires k !in s.locked
    ensures Safe(s, k, now)
  {
  }

  /** Failures of the key "x". */
  function FailedAt(times: seq<int>): seq<Call> {
    seq(|times|, i requires 0 <= i < |times| => At(Fail("x"), times[i]))
  }

  /** Five failures lock the key at 600, and one more is recorded at 1490 under the lock. */
  const HASTY := FailedAt([0, 0, 0, 0, 600, 1490])

  /** The key "x" after failures of its own, short of a full set or just full. */
  ghost predicate Hasty(run: seq<Call>, times: seq<int>) {
    var s := After(run);
    Disciplined(run) && FailuresOf(run, "x") == times && Get(s.verify, "x") == times && s.verify.Keys <= {"x"} &&
    (if |times| < MAX_VERIFY_FAILURES then "x" !in s.locked
     else "x" in s.locked && s.locked["x"] == Last(times) + VERIFY_LOCKOUT)
  }

  lemma {:induction false} AllRecent(times: seq<int>, now: int, window: int)
    requires forall a :: 0 <= a < |times| ==> times[a] > now - window
    ensures Recent(times, now, window) == times
  {
    if times != [] {
      AllRecent(times[..|times| - 1], now, window);
      assert times == times[..|times| - 1] + [times[|times| - 1]];
    }
  }

  lemma FewKeys(m: Times)
    requires m.Keys <= {"x"}
    ensures |m| <= 1
  {
    var one: Times := map["x" := []];
    FewerKeys(m, one);
    assert one.Keys == {"x"};
  }

  /** A failure of the only key tracked, all of whose failures are recent. */
  lemma HastyFail(s: State, now: int)
    requires s.verify.Keys <= {"x"} && InWindow(Get(s.verify, "x"), now)
    ensures var times := Get(s.verify, "x") + [now];
            var at := Admitted(s, "x", now);
            at.ok && at.state.locked == s.locked && Get(at.state.verify, "x") == Get(s.verify, "x") &&
            FailedState(s, "x", now).verify == map["x" := times] &&
            FailedState(s, "x", now).locked ==
            if |times| >= MAX_VERIFY_FAILURES then s.locked["x" := now + VERIFY_LOCKOUT] else s.locked
  {
    AllRecent(Get(s.verify, "x"), now, VERIFY_WINDOW);
    FewKeys(Pruned(s.verify, "x", now, VERIFY_WINDOW));
    PrunedGet(s.verify, "x", now, VERIFY_WINDOW, "x");
  }

  lemma HastyStep(before: seq<Call>, times: seq<int>, now: int)
    requires Hasty(before, times) && |times| < MAX_VERIFY_FAILURES
    requires InWindow(times, now)
    ensures Hasty(before + [At(Fail("x"), now)], times + [now])
  {
    var c := At(Fail("x"), now);
    HastyFail(After(before), now);
    AfterMore(before, c, "x");
    CarefulMore(before, 0, c);
  }

  /** What each further failure within the window keeps holds after all of them. */
  lemma {:induction false} EachFailure(times: seq<int>, holds: (seq<Call>, seq<int>) -> bool)
    requires |times| <= MAX_VERIFY_FAILURES && holds([], [])
    requires forall a, b :: 0 <= a < b < |times| ==> times[a] > times[b] - VERIFY_WINDOW
    requires forall run, some, now :: holds(run, some) && |some| < MAX_VERIFY_FAILURES && InWindow(some, now) ==>
               holds(run + [At(Fail("x"), now)], some + [now])
    ensures holds(FailedAt(times), times)
  {
    if times == [] {
      assert FailedAt(times) == [];
    } else {
      var before, now := times[..|times| - 1], times[|times| - 1];
      EachFailure(before, holds);
      assert InWindow(before, now);
      assert FailedAt(times) == FailedAt(before) + [At(Fail("x"), now)] && times == before + [now];
    }
  }

  ghost predicate InWindow(times: seq<int>, now: int) {
    forall a :: 0 <= a < |times| ==> times[a] > now - VERIFY_WINDOW
  }

  /** Failures of "x" alone, all within one window. */
  lemma HastyRun(times: seq<int>)
    requires |times| <= MAX_VERIFY_FAILURES
    requires forall a, b :: 0 <= a < b < |times| ==> times[a] > times[b] - VERIFY_WINDOW
    ensures Hasty(FailedAt(times), times)
  {
    ghost var holds := (run: seq<Call>, some: seq<int>) => Hasty(run, some);
    assert holds([], []);
    forall run, some, now | holds(run, some) && |some| < MAX_VERIFY_FAILURES && InWindow(some, now)
      ensures holds(run + [At(Fail("x"), now)], some + [now])
    {
      HastyStep(run, some, now);
    }
    EachFailure(times, holds);
    assert holds(FailedAt(times), times);
  }

  /** The smallest run on which a failure is forgotten: after the lock ran out at 1500, one
      check and four more failures leave the key unlocked, although five failures lie in the
      last 15 minutes. */
  lemma ForgottenFailure() returns (more: seq<Call>)
    ensures Strikes(HASTY, "x") && Forgets(HASTY, more, "x", 1500)
  {
    var run := HastyShape();
    more := Forgotten(run);
  }

  lemma HastyShape() returns (run: seq<Call>)
    ensures run == HASTY && |run| == 6 && Timed(run) && run[5] == At(Fail("x"), 1490) &&
            Hasty(run[..5], [0, 0, 0, 0, 600])
  {
    run := HASTY;
    HastyFront();
    HastyRun([0, 0, 0, 0, 600]);
  }

  lemma HastyFront()
    ensures |HASTY| == 6 && HASTY[..5] == FailedAt([0, 0, 0, 0, 600])
  {
  }

  lemma Forgotten(run: seq<Call>) returns (more: seq<Call>)
    requires |run| == 6 && Timed(run) && run[5] == At(Fail("x"), 1490) && Hasty(run[..5], [0, 0, 0, 0, 600])
    ensures Strikes(run, "x") && Forgets(run, more, "x", 1500)
  {
    LastHasty(run);
    var now, log;
    more, now, log := UnsafeForgets(run, "x");
  }

  lemma LastHasty(run: seq<Call>)
    requires |run| == 6 && Timed(run) && run[5] == At(Fail("x"), 1490) && Hasty(run[..5], [0, 0, 0, 0, 600])
    ensures Strikes(run, "x") && Last(FailuresOf(run[..|run| - 1], "x")) == 600 && Clock(run) == 1490
  {
    HastyState(run[..5]);
    HastyUnsafe(After(run[..5]));
  }

  lemma HastyState(run: seq<Call>)
    requires Hasty(run, [0, 0, 0, 0, 600])
    ensures var s := After(run); Get(s.verify, "x") == [0, 0, 0, 0, 600] && s.verify.Keys <= {"x"} && "x" in s.locked
    ensures Disciplined(run) && Last(FailuresOf(run, "x")) == 600
  {
  }

  lemma HastyUnsafe(s: State)
    requires Get(s.verify, "x") == [0, 0, 0, 0, 600] && s.verify.Keys <= {"x"} && "x" in s.locked
    ensures !Safe(s, "x", 1490)
  {
    var early := [0, 0, 0, 0];
    assert early + [600] == [0, 0, 0, 0, 600];
    NoneRecent(early, 1490, 1490, VERIFY_WINDOW);
    RecentNext(early, 1490, VERIFY_WINDOW, 600);
    FewKeys(Pruned(s.verify, "x", 1490, VERIFY_WINDOW));
    PrunedGet(s.verify, "x", 1490, VERIFY_WINDOW, "x");
  }
}
