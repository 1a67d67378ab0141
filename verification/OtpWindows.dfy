/** The throttler's answers in numbers (internal/identity/otpthrottle.go:11-199): what its
    windows hold, which keys it admits, and what its limits come to. */
module OtpWindows {
  import opened Sets
  import opened OtpThrottle
  import opened OtpProperties
  import opened Selections

  /** The entries made within the given time before now. */
  function Within(log: seq<int>, now: int, time: int): set<nat> {
    set k: nat | k < |log| && log[k] > now - time
  }

  ghost predicate SameEntry(kept: seq<int>, log: seq<int>, j: nat, k: nat) {
    j < |kept| && k < |log| && kept[j] == log[k]
  }

  /** A window holds exactly the entries made within its time, in order. */
  lemma {:induction false} WindowHolds(log: seq<int>, now: int, time: int) returns (at: seq<nat>)
    ensures Positions(at, |log|, (k: nat) => k in Within(log, now, time))
    ensures Matched(at, |Recent(log, now, time)|, (j: nat, k: nat) => SameEntry(Recent(log, now, time), log, j, k))
    ensures |Recent(log, now, time)| == |Within(log, now, time)|
  {
    if log == [] {
      at := [];
      return;
    }
    var n := |log| - 1;
    at := WindowHolds(log[..n], now, time);
    var was, kept := Recent(log[..n], now, time), Recent(log, now, time);
    assert forall k: nat :: k < n ==> log[..n][k] == log[k];
    at := NextSelected(at, n, (k: nat) => k in Within(log[..n], now, time), (k: nat) => k in Within(log, now, time),
                       |was|, (j: nat, k: nat) => SameEntry(was, log[..n], j, k),
                       (j: nat, k: nat) => SameEntry(kept, log, j, k));
    assert Within(log, now, time) ==
           if log[n] > now - time then Within(log[..n], now, time) + {n} else Within(log[..n], now, time);
  }

  // ---- Sends ----------------------------------------------------------------------------------

  /** Main result: a code may be sent exactly when fewer than ten recorded sends went to the
      phone, and fewer than thirty came from the address, in the last 24 hours. */
  lemma SendsInNumbers(run: seq<Call>, phone: string, ip: string, now: int)
    requires Timed(run) && Ended(run, now)
    ensures SendAnswer(After(run), phone, ip, now) <==>
            |Within(SentTo(run, phone), now, 24 * 3600)| < 10 && |Within(SentFrom(run, ip), now, 24 * 3600)| < 30
  {
    SendsAsLogged(run, phone, ip, now);
    var _ := WindowHolds(SentTo(run, phone), now, DAY);
    var _ := WindowHolds(SentFrom(run, ip), now, DAY);
  }

  // ---- Failures --------------------------------------------------------------------------------

  /** Failure k is the fifth or later within a quarter of an hour. */
  predicate Completes(log: seq<int>, k: nat) {
    k < |log| && |Within(log[..k + 1], log[k], 15 * 60)| >= 5
  }

  /** A failure that completed a set of five came less than a quarter of an hour ago, and
      `until` is when the lock of the last such failure ends. */
  predicate LockedUntil(log: seq<int>, now: int, until: int) {
    exists k :: 0 <= k < |log| && LastSet(log, k) && until == log[k] + 15 * 60 && now < until
  }

  /** The last failure that completed a set. */
  predicate LastSet(log: seq<int>, k: nat) {
    Completes(log, k) && forall j: nat :: k < j < |log| ==> !Completes(log, j)
  }

  lemma FullCompletes(log: seq<int>)
    ensures Full(log) <==> log != [] && Completes(log, |log| - 1)
  {
    if log != [] {
      assert log[..|log|] == log;
      var _ := WindowHolds(log, log[|log| - 1], VERIFY_WINDOW);
    }
  }

  lemma {:induction false} LockIs(log: seq<int>)
    ensures LockOf(log).None? <==> forall k: nat :: !Completes(log, k)
    ensures LockOf(log).Some? ==>
              exists k :: 0 <= k < |log| && LastSet(log, k) && LockOf(log).value == log[k] + 15 * 60
  {
    FullCompletes(log);
    if log != [] {
      var n := |log| - 1;
      var front := log[..n];
      forall k: nat ensures Completes(front, k) <==> k < n && Completes(log, k) {
        if k < n {
          assert front[..k + 1] == log[..k + 1];
        }
      }
      if Full(log) {
        assert LastSet(log, n);
      } else {
        LockIs(front);
        if LockOf(front).Some? {
          var k :| 0 <= k < |front| && LastSet(front, k) && LockOf(front).value == front[k] + 15 * 60;
          assert LastSet(log, k);
        }
      }
    }
  }

  /** Main result: on a disciplined run a check is refused exactly while the lock of the last
      failure that was the fifth within fifteen minutes runs, fifteen minutes long; the answer
      says for how much longer. */
  lemma ChecksInNumbers(run: seq<Call>, k: string, now: int)
    requires Timed(run) && Disciplined(run) && Ended(run, now)
    ensures Tells(CheckAnswer(After(run), k, now), FailuresOf(run, k), now)
  {
    ChecksAsLogged(run, k, now);
    AnswerTells(FailuresOf(run, k), now);
  }

  /** The answer tells whether the log locks the key, and for how much longer. */
  ghost predicate Tells(answer: Verdict, log: seq<int>, now: int) {
    if answer.ok then answer.retryAfter == 0 && forall until :: !LockedUntil(log, now, until)
    else LockedUntil(log, now, now + answer.retryAfter)
  }

  lemma AnswerTells(log: seq<int>, now: int)
    ensures Tells(LogAnswer(log, now), log, now)
  {
    LockIs(log);
    if LockOf(log).None? || LockOf(log).value <= now {
      forall until ensures !LockedUntil(log, now, until) {
        OneLock(log, now, until);
      }
    }
  }

  lemma OneLock(log: seq<int>, now: int, until: int)
    requires LockOf(log).None? || LockOf(log).value <= now
    ensures !LockedUntil(log, now, until)
  {
    LockIs(log);
  }

  // ---- Admission -------------------------------------------------------------------------------

  /** The keys with an entry inside the window. */
  function Live(m: Times, now: int, time: int): set<string> {
    set k | k in m && Within(m[k], now, time) != {}
  }

  /** The keys a sweep keeps in a map. A key whose lock ran out loses its failures. */
  function SweptKeys(s: State, which: Which, now: int): set<string> {
    match which
    case Verify => Live(s.verify, now, 15 * 60) - set k | k in s.locked && s.locked[k] <= now
    case SentPhone => Live(s.sentPhone, now, 24 * 3600)
    case SentIP => Live(s.sentIP, now, 24 * 3600)
  }

  lemma SweptLive(m: Times, now: int, time: int)
    ensures Swept(m, now, time).Keys == Live(m, now, time)
    ensures forall k :: k in Live(m, now, time) ==> Swept(m, now, time)[k] == Recent(m[k], now, time)
  {
    forall k | k in m ensures Recent(m[k], now, time) != [] <==> Within(m[k], now, time) != {} {
      var _ := WindowHolds(m[k], now, time);
    }
  }

  /** Below the cap every key is admitted and nothing is swept. At the cap everything that
      left its window goes first; then a key is admitted exactly when it is still tracked, or
      the sweep made room. */
  lemma AdmitsExactly(s: State, which: Which, k: string, now: int)
    ensures var a := Admit(s, which, k, now);
            if |MapOf(s, which).Keys| < 100_000 then a == Admission(true, s)
            else
              && (a.ok <==> k in SweptKeys(s, which, now) || |SweptKeys(s, which, now)| < 100_000)
              && a.state.verify.Keys == SweptKeys(s, Verify, now)
              && a.state.sentPhone.Keys == SweptKeys(s, SentPhone, now)
              && a.state.sentIP.Keys == SweptKeys(s, SentIP, now)
              && a.state.locked == map j | j in s.locked && now < s.locked[j] :: s.locked[j]
  {
    SweptKeysAre(s, Verify, now);
    SweptKeysAre(s, SentPhone, now);
    SweptKeysAre(s, SentIP, now);
    SweptLocks(s, now);
    SizeOfKeys(MapOf(s, which));
    SizeOfKeys(MapOf(SweptAll(s, now), which));
  }

  lemma SizeOfKeys(m: Times)
    ensures |m| == |m.Keys|
  {
  }

  lemma SweptKeysAre(s: State, which: Which, now: int)
    ensures MapOf(SweptAll(s, now), which).Keys == SweptKeys(s, which, now)
  {
    match which
    case Verify => SweptLive(s.verify, now, VERIFY_WINDOW);
    case SentPhone => SweptLive(s.sentPhone, now, DAY);
    case SentIP => SweptLive(s.sentIP, now, DAY);
  }

  lemma SweptLocks(s: State, now: int)
    ensures SweptAll(s, now).locked == map j | j in s.locked && now < s.locked[j] :: s.locked[j]
  {
  }
}
