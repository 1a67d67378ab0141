/** The throttler's pruned windows answer as unpruned logs would
    (internal/identity/otpthrottle.go:73-199). */
module OtpProperties {
  import opened OtpThrottle
  import opened Provider

  // ---- Runs --------------------------------------------------------------------------------

  datatype Op =
    | Check(k: string)
    | Fail(k: string)
    | Success(k: string)
    | Allow(phone: string, ip: string)
    | Send(phone: string, ip: string)

  /** A call and the clock when it takes the mutex. */
  datatype Call = At(op: Op, now: int)

  function Next(s: State, c: Call): State {
    match c.op
    case Check(k) => Checked(s, k, c.now)
    case Fail(k) => FailedState(s, k, c.now)
    case Success(k) => Succeeded(s, k)
    case Allow(phone, ip) => SendChecked(s, phone, ip, c.now)
    case Send(phone, ip) => IPRecorded(PhoneRecorded(s, phone, c.now), ip, c.now)
  }

  function After(run: seq<Call>): State {
    if run == [] then EMPTY else Next(After(run[..|run| - 1]), run[|run| - 1])
  }

  /** The clock never runs backwards. */
  ghost predicate Timed(run: seq<Call>) {
    forall a, b :: 0 <= a < b < |run| ==> run[a].now <= run[b].now
  }

  function Clock(run: seq<Call>): int
    requires run != []
  {
    run[|run| - 1].now
  }

  // ---- Windows ---------------------------------------------------------------------------------

  /** Entries in the order they were made, none after now. */
  ghost predicate UpTo(times: seq<int>, now: int) {
    (forall a, b :: 0 <= a < b < |times| ==> times[a] <= times[b]) && (forall a :: 0 <= a < |times| ==> times[a] <= now)
  }

  lemma {:induction false} RecentTwice(times: seq<int>, then_: int, now: int, window: int)
    requires then_ <= now
    ensures Recent(Recent(times, then_, window), now, window) == Recent(times, now, window)
  {
    if times != [] {
      var front, last := times[..|times| - 1], times[|times| - 1];
      RecentTwice(front, then_, now, window);
      if last > then_ - window {
        assert (Recent(front, then_, window) + [last])[..|Recent(front, then_, window)|] ==
                 Recent(front, then_, window);
      }
    }
  }

  lemma RecentNext(times: seq<int>, now: int, window: int, x: int)
    requires x > now - window
    ensures Recent(times + [x], now, window) == Recent(times, now, window) + [x]
  {
    assert (times + [x])[..|times|] == times;
  }

  lemma {:induction false} RecentUpTo(times: seq<int>, now: int, at: int, window: int)
    requires UpTo(times, now)
    ensures UpTo(Recent(times, at, window), now) && |Recent(times, at, window)| <= |times|
    ensures Recent(times, at, window) != [] ==> Last(Recent(times, at, window)) == Last(times)
    ensures times != [] && Last(times) > at - window ==> Recent(times, at, window) != []
  {
    if times != [] {
      RecentUpTo(times[..|times| - 1], now, at, window);
      RecentAmong(times[..|times| - 1], at, window);
      NoneRecent(times, now, at, window);
    }
  }

  lemma {:induction false} RecentAmong(times: seq<int>, at: int, window: int)
    ensures forall x :: x in Recent(times, at, window) ==> x in times
  {
    if times != [] {
      RecentAmong(times[..|times| - 1], at, window);
    }
  }

  /** Once the last entry left the window all did. */
  lemma {:induction false} NoneRecent(times: seq<int>, now: int, at: int, window: int)
    requires UpTo(times, now)
    ensures times != [] && Last(times) <= at - window ==> Recent(times, at, window) == []
  {
    if |times| > 1 {
      NoneRecent(times[..|times| - 1], now, at, window);
    }
  }

  function Last(times: seq<int>): int {
    if times == [] then 0 else times[|times| - 1]
  }

  lemma PrunedGet(m: Times, k: string, now: int, window: int, j: string)
    ensures Get(Pruned(m, k, now, window), j) == if j == k then Recent(Get(m, k), now, window) else Get(m, j)
  {
  }

  lemma SweptGet(m: Times, now: int, window: int, j: string)
    ensures Get(Swept(m, now, window), j) == Recent(Get(m, j), now, window)
  {
  }

  // ---- Sizes --------------------------------------------------------------------------------------

  lemma FewerKeys<V, W>(a: map<string, V>, b: map<string, W>)
    requires a.Keys <= b.Keys
    ensures |a| <= |b|
  {
    var rest := b.Keys - a.Keys;
    assert b.Keys == a.Keys + rest;
    assert |b.Keys| == |a.Keys| + |rest|;
  }

  lemma OneMoreKey(m: Times, k: string, v: seq<int>)
    ensures |m[k := v]| == if k in m then |m| else |m| + 1
  {
    assert m[k := v].Keys == m.Keys + {k};
    if k in m {
      assert m.Keys + {k} == m.Keys;
    }
  }

  ghost predicate Small(s: State) {
    |s.verify| <= MAX_KEYS && |s.sentPhone| <= MAX_KEYS && |s.sentIP| <= MAX_KEYS
  }

  lemma SweptSmall(s: State, now: int)
    requires Small(s)
    ensures Small(SweptAll(s, now))
  {
    var s' := SweptAll(s, now);
    FewerKeys(s'.verify, s.verify);
    FewerKeys(s'.sentPhone, s.sentPhone);
    FewerKeys(s'.sentIP, s.sentIP);
  }

  lemma AdmitSmall(s: State, which: Which, k: string, now: int)
    requires Small(s)
    ensures var a := Admit(s, which, k, now);
            Small(a.state) && (a.ok ==> k in MapOf(a.state, which) || |MapOf(a.state, which)| < MAX_KEYS)
  {
    SweptSmall(s, now);
  }

  lemma GrownSmall(m: Times, k: string, now: int)
    requires k in m || |m| < MAX_KEYS
    ensures |m| <= MAX_KEYS ==> |Appended(m, k, now)| <= MAX_KEYS
  {
    OneMoreKey(m, k, Get(m, k) + [now]);
  }

  lemma FailedSmall(s: State, k: string, now: int)
    requires Small(s)
    ensures Small(FailedState(s, k, now))
  {
    var s1 := s.(verify := Pruned(s.verify, k, now, VERIFY_WINDOW));
    FewerKeys(s1.verify, s.verify);
    AdmitSmall(s1, Verify, k, now);
    var a := Admit(s1, Verify, k, now);
    if a.ok {
      GrownSmall(a.state.verify, k, now);
    }
  }

  lemma PhoneSmall(s: State, phone: string, now: int)
    requires Small(s)
    ensures Small(PhoneRecorded(s, phone, now))
  {
    AdmitSmall(s, SentPhone, phone, now);
    var a := Admit(s, SentPhone, phone, now);
    if a.ok {
      GrownSmall(a.state.sentPhone, phone, now);
    }
  }

  lemma IPSmall(s: State, ip: string, now: int)
    requires Small(s)
    ensures Small(IPRecorded(s, ip, now))
  {
    AdmitSmall(s, SentIP, ip, now);
    var a := Admit(s, SentIP, ip, now);
    if a.ok {
      GrownSmall(a.state.sentIP, ip, now);
    }
  }

  lemma CheckedSmall(s: State, k: string, now: int)
    requires Small(s)
    ensures Small(Checked(s, k, now))
  {
    FewerKeys(Checked(s, k, now).verify, s.verify);
  }

  lemma AllowedSmall(s: State, phone: string, ip: string, now: int)
    requires Small(s)
    ensures Small(SendChecked(s, phone, ip, now))
  {
    FewerKeys(Pruned(s.sentPhone, phone, now, DAY), s.sentPhone);
    FewerKeys(Pruned(s.sentIP, ip, now, DAY), s.sentIP);
  }

  lemma SucceededSmall(s: State, k: string)
    requires Small(s)
    ensures Small(Succeeded(s, k))
  {
    FewerKeys(s.verify - {k}, s.verify);
  }

  lemma SentSmall(s: State, phone: string, ip: string, now: int)
    requires Small(s)
    ensures Small(IPRecorded(PhoneRecorded(s, phone, now), ip, now))
  {
    PhoneSmall(s, phone, now);
    IPSmall(PhoneRecorded(s, phone, now), ip, now);
  }

  lemma NextFailed(s: State, c: Call)
    requires Small(s) && c.op.Fail?
    ensures Small(Next(s, c))
  {
    FailedSmall(s, c.op.k, c.now);
    assert Next(s, c) == FailedState(s, c.op.k, c.now);
  }

  lemma NextSmall(s: State, c: Call)
    requires Small(s)
    ensures Small(Next(s, c))
  {
    match c.op
    case Check(k) =>
      CheckedSmall(s, k, c.now);
      assert Next(s, c) == Checked(s, k, c.now);
    case Fail(k) => NextFailed(s, c);
    case Success(k) => SucceededSmall(s, k);
    case Allow(phone, ip) => AllowedSmall(s, phone, ip, c.now);
    case Send(phone, ip) => SentSmall(s, phone, ip, c.now);
  }

  // ---- Locks --------------------------------------------------------------------------------------

  /** A lock belongs to a tracked key and does not outlast its last failure by more than the
      lockout; a key with the maximum of failures is locked from its last one. */
  ghost predicate LockSound(s: State, k: string, now: int) {
    var times := Get(s.verify, k);
    && UpTo(times, now) && (k in s.verify ==> times != [])
    && (k in s.locked ==> times != [] && s.locked[k] <= Last(times) + VERIFY_LOCKOUT)
    && (|times| >= MAX_VERIFY_FAILURES ==> k in s.locked && s.locked[k] == Last(times) + VERIFY_LOCKOUT)
  }

  lemma LockSwept(s: State, k: string, then_: int, now: int)
    requires LockSound(s, k, then_) && then_ <= now
    ensures LockSound(SweptAll(s, now), k, now)
  {
    SweptGet(s.verify, now, VERIFY_WINDOW, k);
    RecentUpTo(Get(s.verify, k), then_, now, VERIFY_WINDOW);
  }

  lemma LockPruned(s: State, k: string, j: string, then_: int, now: int)
    requires LockSound(s, k, then_) && then_ <= now && (j in s.locked ==> now < s.locked[j])
    ensures LockSound(s.(verify := Pruned(s.verify, j, now, VERIFY_WINDOW)), k, now)
  {
    PrunedGet(s.verify, j, now, VERIFY_WINDOW, k);
    RecentUpTo(Get(s.verify, k), then_, now, VERIFY_WINDOW);
  }

  lemma LockChecked(s: State, k: string, j: string, then_: int, now: int)
    requires LockSound(s, k, then_) && then_ <= now
    ensures LockSound(Checked(s, j, now), k, now)
  {
    if !(j in s.locked && now < s.locked[j]) {
      var s' := if j in s.locked then s.(locked := s.locked - {j}, verify := s.verify - {j}) else s;
      LockPruned(s', k, j, then_, now);
    }
  }

  lemma LockFailedOther(s: State, k: string, j: string, then_: int, now: int)
    requires LockSound(s, k, then_) && then_ <= now && k != j
    ensures LockSound(FailedState(s, j, now), k, now)
  {
    var s1 := s.(verify := Pruned(s.verify, j, now, VERIFY_WINDOW));
    PrunedGet(s.verify, j, now, VERIFY_WINDOW, k);
    assert LockSound(s1, k, now);
    LockSwept(s1, k, now, now);
  }

  /** The key's own list when the failure is admitted: what is recent, or nothing after an
      expired lock was swept. */
  lemma FailedList(s: State, k: string, then_: int, now: int)
    requires LockSound(s, k, then_) && then_ <= now
    ensures var a := Admit(s.(verify := Pruned(s.verify, k, now, VERIFY_WINDOW)), Verify, k, now);
            var times, recent := Get(a.state.verify, k), Recent(Get(s.verify, k), now, VERIFY_WINDOW);
            (times == recent || times == []) &&
            (k in a.state.locked ==> k in s.locked && a.state.locked[k] == s.locked[k]) &&
            (k in s.locked && now < s.locked[k] ==> k in a.state.locked && a.ok) &&
            (!a.ok ==> times == [] && k !in a.state.locked) &&
            (k !in s.locked || k in a.state.locked ==> times == recent)
  {
    var s1 := s.(verify := Pruned(s.verify, k, now, VERIFY_WINDOW));
    PrunedGet(s.verify, k, now, VERIFY_WINDOW, k);
    SweptGet(s1.verify, now, VERIFY_WINDOW, k);
    RecentTwice(Get(s.verify, k), now, now, VERIFY_WINDOW);
    RecentUpTo(Get(s.verify, k), then_, now, VERIFY_WINDOW);
    NoneRecent(Get(s.verify, k), then_, now, VERIFY_WINDOW);
  }

  lemma LockFailed(s: State, k: string, j: string, then_: int, now: int)
    requires LockSound(s, k, then_) && then_ <= now
    ensures LockSound(FailedState(s, j, now), k, now)
  {
    if k != j {
      LockFailedOther(s, k, j, then_, now);
    } else {
      FailedList(s, k, then_, now);
      RecentUpTo(Get(s.verify, k), then_, now, VERIFY_WINDOW);
      var a := Admit(s.(verify := Pruned(s.verify, k, now, VERIFY_WINDOW)), Verify, k, now);
      if a.ok {
        LockAppended(a.state, k, now);
      }
    }
  }

  lemma LockAppended(s: State, k: string, now: int)
    requires UpTo(Get(s.verify, k), now) && (k in s.locked ==> s.locked[k] <= now + VERIFY_LOCKOUT)
    ensures var v := Appended(s.verify, k, now);
            var locked := if |v[k]| >= MAX_VERIFY_FAILURES then s.locked[k := now + VERIFY_LOCKOUT] else s.locked;
            LockSound(s.(verify := v, locked := locked), k, now)
  {
    var v := Appended(s.verify, k, now);
    assert Last(v[k]) == now;
  }

  lemma PhoneSound(s: State, k: string, phone: string, now: int)
    requires LockSound(s, k, now)
    ensures LockSound(PhoneRecorded(s, phone, now), k, now)
  {
    LockSwept(s, k, now, now);
  }

  lemma IPSound(s: State, k: string, ip: string, now: int)
    requires LockSound(s, k, now)
    ensures LockSound(IPRecorded(s, ip, now), k, now)
  {
    LockSwept(s, k, now, now);
  }

  lemma LockNext(s: State, k: string, then_: int, c: Call)
    requires LockSound(s, k, then_) && then_ <= c.now
    ensures LockSound(Next(s, c), k, c.now)
  {
    match c.op
    case Check(j) => LockChecked(s, k, j, then_, c.now);
    case Fail(j) => LockFailed(s, k, j, then_, c.now);
    case Success(j) =>
    case Allow(_, _) =>
    case Send(phone, ip) =>
      PhoneSound(s, k, phone, c.now);
      IPSound(PhoneRecorded(s, phone, c.now), k, ip, c.now);
  }

  lemma {:induction false} AlwaysSound(run: seq<Call>, k: string)
    requires Timed(run) && run != []
    ensures LockSound(After(run), k, Clock(run)) && Small(After(run))
  {
    var front, last := run[..|run| - 1], run[|run| - 1];
    var then_ := if front == [] then last.now else Clock(front);
    if front == [] {
      assert LockSound(EMPTY, k, last.now);
    } else {
      AlwaysSound(front, k);
    }
    LockNext(After(front), k, then_, last);
    NextSmall(After(front), last);
  }

  /** Main result: with a monotone clock no map outgrows the cap, and every locked key is
      tracked, so the locks are bounded with it. */
  lemma Bounded(run: seq<Call>)
    requires Timed(run)
    ensures var s := After(run); Small(s) && s.locked.Keys <= s.verify.Keys && |s.locked| <= MAX_KEYS
  {
    if run != [] {
      AlwaysSound(run, "");
      forall k | k in After(run).locked ensures k in After(run).verify {
        AlwaysSound(run, k);
      }
    }
    FewerKeys(After(run).locked, After(run).verify);
  }

  /** Main result: the length guard of CheckVerify never answers; the lock always does. */
  lemma LengthGuardUnreachable(run: seq<Call>, k: string, now: int)
    requires Timed(run) && (run != [] ==> Clock(run) <= now)
    ensures var s := After(run);
            CheckAnswer(s, k, now) ==
            if k in s.locked && now < s.locked[k] then Verdict(false, s.locked[k] - now) else Verdict(true, 0)
  {
    if run != [] {
      AlwaysSound(run, k);
      LockChecked(After(run), k, k, Clock(run), now);
    }
  }

  // ---- Sends: the unpruned log ------------------------------------------------------------------

  /** When a send to the phone was recorded, all of them. */
  function SentTo(run: seq<Call>, phone: string): seq<int> {
    if run == [] then [] else
    var rest, s, c := SentTo(run[..|run| - 1], phone), After(run[..|run| - 1]), run[|run| - 1];
    if c.op.Send? && c.op.phone == phone && Admit(s, SentPhone, phone, c.now).ok then rest + [c.now] else rest
  }

  function SentFrom(run: seq<Call>, ip: string): seq<int> {
    if run == [] then [] else
    var rest, s, c := SentFrom(run[..|run| - 1], ip), After(run[..|run| - 1]), run[|run| - 1];
    if c.op.Send? && c.op.ip == ip && Admit(PhoneRecorded(s, c.op.phone, c.now), SentIP, ip, c.now).ok
    then rest + [c.now] else rest
  }

  /** The kept entries and the log agree on the window that ends now. */
  ghost predicate Agree(kept: seq<int>, log: seq<int>, now: int) {
    Recent(kept, now, DAY) == Recent(log, now, DAY)
  }

  lemma AgreeLater(kept: seq<int>, log: seq<int>, then_: int, now: int)
    requires Agree(kept, log, then_) && then_ <= now
    ensures Agree(kept, log, now) && Agree(Recent(kept, now, DAY), log, now)
  {
    RecentTwice(kept, then_, now, DAY);
    RecentTwice(log, then_, now, DAY);
    RecentTwice(kept, now, now, DAY);
  }

  lemma AgreeNext(kept: seq<int>, log: seq<int>, now: int)
    requires Agree(kept, log, now)
    ensures Agree(kept + [now], log + [now], now)
  {
    RecentNext(kept, now, DAY, now);
    RecentNext(log, now, DAY, now);
  }

  /** A list left alone or pruned. */
  ghost predicate Kept(before: seq<int>, after: seq<int>, now: int) {
    after == before || after == Recent(before, now, DAY)
  }

  lemma AdmitKeeps(s: State, which: Which, k: string, now: int, j: string)
    ensures var s' := Admit(s, which, k, now).state;
            Kept(Get(s.sentPhone, j), Get(s'.sentPhone, j), now) && Kept(Get(s.sentIP, j), Get(s'.sentIP, j), now)
  {
    SweptGet(s.sentPhone, now, DAY, j);
    SweptGet(s.sentIP, now, DAY, j);
  }

  lemma AgreeKept(before: seq<int>, after: seq<int>, log: seq<int>, then_: int, now: int)
    requires Agree(before, log, then_) && then_ <= now && Kept(before, after, now)
    ensures Agree(after, log, now)
  {
    AgreeLater(before, log, then_, now);
  }

  /** Calls other than sends keep both lists or prune them. */
  lemma OthersKeep(s: State, c: Call, j: string)
    requires !c.op.Send?
    ensures Kept(Get(s.sentPhone, j), Get(Next(s, c).sentPhone, j), c.now) &&
            Kept(Get(s.sentIP, j), Get(Next(s, c).sentIP, j), c.now)
  {
    match c.op
    case Fail(k) => FailKeeps(s, k, c.now, j);
    case Allow(phone, ip) => AllowKeeps(s, phone, ip, c.now, j);
    case Check(k) => CheckKeeps(s, k, c.now);
    case Success(k) => assert Succeeded(s, k).sentPhone == s.sentPhone && Succeeded(s, k).sentIP == s.sentIP;
  }

  lemma FailKeeps(s: State, k: string, now: int, j: string)
    ensures var s' := FailedState(s, k, now);
            Kept(Get(s.sentPhone, j), Get(s'.sentPhone, j), now) && Kept(Get(s.sentIP, j), Get(s'.sentIP, j), now)
  {
    AdmitKeeps(s.(verify := Pruned(s.verify, k, now, VERIFY_WINDOW)), Verify, k, now, j);
  }

  lemma AllowKeeps(s: State, phone: string, ip: string, now: int, j: string)
    ensures var s' := SendChecked(s, phone, ip, now);
            Kept(Get(s.sentPhone, j), Get(s'.sentPhone, j), now) && Kept(Get(s.sentIP, j), Get(s'.sentIP, j), now)
  {
    PrunedGet(s.sentPhone, phone, now, DAY, j);
    PrunedGet(s.sentIP, ip, now, DAY, j);
  }

  lemma CheckKeeps(s: State, k: string, now: int)
    ensures Checked(s, k, now).sentPhone == s.sentPhone && Checked(s, k, now).sentIP == s.sentIP
  {
  }

  lemma PhoneAgrees(s: State, phone: string, ip: string, now: int, then_: int, j: string, log: seq<int>)
    requires Agree(Get(s.sentPhone, j), log, then_) && then_ <= now
    ensures Agree(Get(IPRecorded(PhoneRecorded(s, phone, now), ip, now).sentPhone, j),
                  if phone == j && Admit(s, SentPhone, phone, now).ok then log + [now] else log, now)
  {
    var a := Admit(s, SentPhone, phone, now);
    AdmitKeeps(s, SentPhone, phone, now, j);
    AgreeKept(Get(s.sentPhone, j), Get(a.state.sentPhone, j), log, then_, now);
    var s1 := PhoneRecorded(s, phone, now);
    var log1 := if phone == j && a.ok then log + [now] else log;
    if phone == j && a.ok {
      AgreeNext(Get(a.state.sentPhone, j), log, now);
    }
    AdmitKeeps(s1, SentIP, ip, now, j);
    AgreeKept(Get(s1.sentPhone, j), Get(Admit(s1, SentIP, ip, now).state.sentPhone, j), log1, now, now);
  }

  lemma IPAgrees(s: State, phone: string, ip: string, now: int, then_: int, j: string, log: seq<int>)
    requires Agree(Get(s.sentIP, j), log, then_) && then_ <= now
    ensures var s1 := PhoneRecorded(s, phone, now);
            Agree(Get(IPRecorded(s1, ip, now).sentIP, j),
                  if ip == j && Admit(s1, SentIP, ip, now).ok then log + [now] else log, now)
  {
    var s1 := PhoneRecorded(s, phone, now);
    AdmitKeeps(s, SentPhone, phone, now, j);
    AgreeKept(Get(s.sentIP, j), Get(s1.sentIP, j), log, then_, now);
    var b := Admit(s1, SentIP, ip, now);
    AdmitKeeps(s1, SentIP, ip, now, j);
    AgreeKept(Get(s1.sentIP, j), Get(b.state.sentIP, j), log, now, now);
    if ip == j && b.ok {
      AgreeNext(Get(b.state.sentIP, j), log, now);
    }
  }

  lemma {:induction false} LogsAgree(run: seq<Call>, phone: string, ip: string)
    requires Timed(run) && run != []
    ensures Agree(Get(After(run).sentPhone, phone), SentTo(run, phone), Clock(run))
    ensures Agree(Get(After(run).sentIP, ip), SentFrom(run, ip), Clock(run))
  {
    var front, c := run[..|run| - 1], run[|run| - 1];
    var s := After(front);
    var then_ := if front == [] then c.now else Clock(front);
    if front != [] {
      LogsAgree(front, phone, ip);
    }
    if c.op.Send? {
      PhoneAgrees(s, c.op.phone, c.op.ip, c.now, then_, phone, SentTo(front, phone));
      IPAgrees(s, c.op.phone, c.op.ip, c.now, then_, ip, SentFrom(front, ip));
    } else {
      OthersKeep(s, c, phone);
      OthersKeep(s, c, ip);
      AgreeKept(Get(s.sentPhone, phone), Get(After(run).sentPhone, phone), SentTo(front, phone), then_, c.now);
      AgreeKept(Get(s.sentIP, ip), Get(After(run).sentIP, ip), SentFrom(front, ip), then_, c.now);
    }
  }

  /** Main result: AllowSend answers as the unpruned logs of recorded sends would. */
  lemma SendsAsLogged(run: seq<Call>, phone: string, ip: string, now: int)
    requires Timed(run) && (run != [] ==> Clock(run) <= now)
    ensures SendAnswer(After(run), phone, ip, now) <==>
            |Recent(SentTo(run, phone), now, DAY)| < DAILY_PER_PHONE &&
            |Recent(SentFrom(run, ip), now, DAY)| < DAILY_PER_IP
  {
    if run != [] {
      LogsAgree(run, phone, ip);
      AgreeLater(Get(After(run).sentPhone, phone), SentTo(run, phone), Clock(run), now);
      AgreeLater(Get(After(run).sentIP, ip), SentFrom(run, ip), Clock(run), now);
    }
  }

  // ---- Verifications: the unpruned log ------------------------------------------------------------

  /** The recorded failures of a key since its last success. */
  function FailuresOf(run: seq<Call>, k: string): seq<int> {
    if run == [] then [] else
    NextLog(After(run[..|run| - 1]), k, FailuresOf(run[..|run| - 1], k), run[|run| - 1])
  }

  /** The state a failure is recorded in. */
  function Admitted(s: State, k: string, now: int): Admission {
    Admit(s.(verify := Pruned(s.verify, k, now, VERIFY_WINDOW)), Verify, k, now)
  }

  function NextLog(s: State, k: string, log: seq<int>, c: Call): seq<int> {
    match c.op
    case Success(j) => if j == k then [] else log
    case Fail(j) => if j == k && Admitted(s, k, c.now).ok then log + [c.now] else log
    case _ => log
  }

  /** The last failure made a full set within its window. */
  predicate Full(log: seq<int>) {
    log != [] && |Recent(log, Last(log), VERIFY_WINDOW)| >= MAX_VERIFY_FAILURES
  }

  /** Until when the log locks the key: from the last failure that made a full set. */
  function LockOf(log: seq<int>): Option<int> {
    if log == [] then None else if Full(log) then Some(Last(log) + VERIFY_LOCKOUT) else LockOf(log[..|log| - 1])
  }

  /** Reference answer: locked out after any failure that made a full set. */
  function LogAnswer(log: seq<int>, now: int): Verdict {
    match LockOf(log)
    case Some(until) => if now < until then Verdict(false, until - now) else Verdict(true, 0)
    case None => Verdict(true, 0)
  }

  /** The failure finds no lock on its key, or completes a set and so renews it. */
  predicate Safe(s: State, k: string, now: int) {
    var at := Admitted(s, k, now).state;
    k !in at.locked || |Get(at.verify, k)| + 1 >= MAX_VERIFY_FAILURES
  }

  /** Every failure from call n on is safe. */
  ghost predicate Careful(run: seq<Call>, n: nat) {
    forall m :: n <= m < |run| ==> SafeAt(run, m)
  }

  ghost predicate SafeAt(run: seq<Call>, m: nat)
    requires m < |run|
  {
    run[m].op.Fail? ==> Safe(After(run[..m]), run[m].op.k, run[m].now)
  }

  ghost predicate Disciplined(run: seq<Call>) { Careful(run, 0) }

  /** The state of a key mirrors its log: a lock that is held was set by the last failure. */
  ghost predicate Mirrors(s: State, k: string, log: seq<int>, now: int) {
    && UpTo(log, now)
    && Recent(Get(s.verify, k), now, VERIFY_WINDOW) == Recent(log, now, VERIFY_WINDOW)
    && (k in s.locked ==> Full(log) && s.locked[k] == Last(log) + VERIFY_LOCKOUT)
    && (LockOf(log).Some? && now < LockOf(log).value ==> k in s.locked)
  }

  lemma MirrorsLater(s: State, k: string, log: seq<int>, then_: int, now: int)
    requires Mirrors(s, k, log, then_) && then_ <= now
    ensures Mirrors(s, k, log, now)
  {
    RecentTwice(Get(s.verify, k), then_, now, VERIFY_WINDOW);
    RecentTwice(log, then_, now, VERIFY_WINDOW);
  }

  lemma MirrorsPruned(s: State, k: string, log: seq<int>, now: int, j: string)
    requires Mirrors(s, k, log, now)
    ensures Mirrors(s.(verify := Pruned(s.verify, j, now, VERIFY_WINDOW)), k, log, now)
  {
    PrunedGet(s.verify, j, now, VERIFY_WINDOW, k);
    RecentTwice(Get(s.verify, k), now, now, VERIFY_WINDOW);
  }

  lemma MirrorsSwept(s: State, k: string, log: seq<int>, now: int)
    requires Mirrors(s, k, log, now)
    ensures Mirrors(SweptAll(s, now), k, log, now)
  {
    SweptGet(s.verify, now, VERIFY_WINDOW, k);
    RecentTwice(Get(s.verify, k), now, now, VERIFY_WINDOW);
    NoneRecent(log, now, now, VERIFY_WINDOW);
  }

  lemma MirrorsChecked(s: State, k: string, log: seq<int>, now: int, j: string)
    requires Mirrors(s, k, log, now)
    ensures Mirrors(Checked(s, j, now), k, log, now)
  {
    if !(j in s.locked && now < s.locked[j]) {
      var s' := if j in s.locked then s.(locked := s.locked - {j}, verify := s.verify - {j}) else s;
      NoneRecent(log, now, now, VERIFY_WINDOW);
      assert Mirrors(s', k, log, now);
      MirrorsPruned(s', k, log, now, j);
    }
  }

  /** Just before a safe failure is recorded the key's list is what the log has recent. */
  lemma AdmittedMirrors(s: State, k: string, log: seq<int>, now: int)
    requires Mirrors(s, k, log, now) && LockSound(s, k, now)
    ensures var a := Admitted(s, k, now);
            Mirrors(a.state, k, log, now) && Get(a.state.verify, k) == Recent(log, now, VERIFY_WINDOW)
  {
    FailedList(s, k, now, now);
    MirrorsPruned(s, k, log, now, k);
    MirrorsSwept(s.(verify := Pruned(s.verify, k, now, VERIFY_WINDOW)), k, log, now);
    NoneRecent(log, now, now, VERIFY_WINDOW);
  }

  /** Recording a safe failure. */
  lemma MirrorsFailed(s: State, k: string, log: seq<int>, now: int)
    requires Mirrors(s, k, log, now) && LockSound(s, k, now) && Safe(s, k, now)
    ensures Mirrors(FailedState(s, k, now), k, if Admitted(s, k, now).ok then log + [now] else log, now)
  {
    var a := Admitted(s, k, now);
    AdmittedMirrors(s, k, log, now);
    if a.ok {
      MirrorsAppended(a.state, k, log, now);
    }
  }

  lemma MirrorsAppended(s: State, k: string, log: seq<int>, now: int)
    requires Mirrors(s, k, log, now) && Get(s.verify, k) == Recent(log, now, VERIFY_WINDOW)
    requires k !in s.locked || |Get(s.verify, k)| + 1 >= MAX_VERIFY_FAILURES
    ensures var v := Appended(s.verify, k, now);
            var locked := if |v[k]| >= MAX_VERIFY_FAILURES then s.locked[k := now + VERIFY_LOCKOUT] else s.locked;
            Mirrors(s.(verify := v, locked := locked), k, log + [now], now)
  {
    RecentNext(log, now, VERIFY_WINDOW, now);
    RecentTwice(log, now, now, VERIFY_WINDOW);
    RecentNext(Get(s.verify, k), now, VERIFY_WINDOW, now);
    var v := Appended(s.verify, k, now);
    assert v[k] == Recent(log + [now], now, VERIFY_WINDOW);
    AppendedUpTo(log, now);
    LockAfter(log, now);
  }

  lemma LockAfter(log: seq<int>, now: int)
    ensures LockOf(log + [now]) == if Full(log + [now]) then Some(now + VERIFY_LOCKOUT) else LockOf(log)
    ensures Full(log + [now]) <==> |Recent(log, now, VERIFY_WINDOW)| + 1 >= MAX_VERIFY_FAILURES
  {
    assert (log + [now])[..|log|] == log;
    RecentNext(log, now, VERIFY_WINDOW, now);
  }

  lemma AppendedUpTo(log: seq<int>, now: int)
    requires UpTo(log, now)
    ensures UpTo(log + [now], now) && Last(log + [now]) == now && log + [now] != []
  {
  }

  lemma MirrorsFailedOther(s: State, k: string, log: seq<int>, now: int, j: string)
    requires Mirrors(s, k, log, now) && k != j
    ensures Mirrors(FailedState(s, j, now), k, log, now)
  {
    var s1 := s.(verify := Pruned(s.verify, j, now, VERIFY_WINDOW));
    MirrorsPruned(s, k, log, now, j);
    MirrorsSwept(s1, k, log, now);
  }

  lemma MirrorsSent(s: State, k: string, log: seq<int>, now: int, phone: string, ip: string)
    requires Mirrors(s, k, log, now)
    ensures Mirrors(IPRecorded(PhoneRecorded(s, phone, now), ip, now), k, log, now)
  {
    MirrorsSwept(s, k, log, now);
    assert Mirrors(PhoneRecorded(s, phone, now), k, log, now);
    MirrorsSwept(PhoneRecorded(s, phone, now), k, log, now);
  }

  lemma CarefulFront(run: seq<Call>, n: nat)
    requires run != [] && Careful(run, n)
    ensures Careful(run[..|run| - 1], n)
  {
    var front := run[..|run| - 1];
    forall m | n <= m < |front| ensures SafeAt(front, m) {
      assert front[..m] == run[..m] && SafeAt(run, m);
    }
  }

  lemma {:induction false} MirrorsRun(run: seq<Call>, k: string)
    requires Timed(run) && run != [] && Disciplined(run)
    ensures Mirrors(After(run), k, FailuresOf(run, k), Clock(run))
  {
    var front, c := run[..|run| - 1], run[|run| - 1];
    var s, log := After(front), FailuresOf(front, k);
    if front != [] {
      CarefulFront(run, 0);
      MirrorsRun(front, k);
      AlwaysSound(front, k);
      MirrorsLater(s, k, log, Clock(front), c.now);
    }
    assert SafeAt(run, |run| - 1);
    MirrorsNext(s, k, log, c);
  }

  lemma NextLogFail(s: State, k: string, log: seq<int>, c: Call)
    requires c.op.Fail?
    ensures NextLog(s, k, log, c) == if c.op.k == k && Admitted(s, k, c.now).ok then log + [c.now] else log
  {
  }

  lemma MirrorsFailure(s: State, k: string, log: seq<int>, c: Call, after: seq<int>)
    requires c.op.Fail? && LockSound(s, k, c.now) && Mirrors(s, k, log, c.now) && Safe(s, c.op.k, c.now)
    requires after == if c.op.k == k && Admitted(s, k, c.now).ok then log + [c.now] else log
    ensures Mirrors(FailedState(s, c.op.k, c.now), k, after, c.now)
  {
    if c.op.k == k {
      MirrorsFailed(s, k, log, c.now);
    } else {
      MirrorsFailedOther(s, k, log, c.now, c.op.k);
    }
  }

  lemma MirrorsSucceeded(s: State, k: string, log: seq<int>, now: int, j: string)
    requires Mirrors(s, k, log, now)
    ensures Mirrors(Succeeded(s, j), k, if j == k then [] else log, now)
  {
  }

  lemma MirrorsNext(s: State, k: string, log: seq<int>, c: Call)
    requires LockSound(s, k, c.now) && Mirrors(s, k, log, c.now) && (c.op.Fail? ==> Safe(s, c.op.k, c.now))
    ensures Mirrors(Next(s, c), k, NextLog(s, k, log, c), c.now)
  {
    match c.op
    case Check(j) => MirrorsChecked(s, k, log, c.now, j);
    case Fail(j) =>
      NextLogFail(s, k, log, c);
      MirrorsFailure(s, k, log, c, NextLog(s, k, log, c));
    case Success(j) => MirrorsSucceeded(s, k, log, c.now, j);
    case Allow(phone, ip) => assert Next(s, c).verify == s.verify && Next(s, c).locked == s.locked;
    case Send(phone, ip) => MirrorsSent(s, k, log, c.now, phone, ip);
  }

  /** CheckVerify answers as the unpruned log would. */
  ghost predicate Agrees(run: seq<Call>, k: string, now: int) {
    CheckAnswer(After(run), k, now) == LogAnswer(FailuresOf(run, k), now)
  }

  ghost predicate Ended(run: seq<Call>, now: int) { run != [] ==> Clock(run) <= now }

  /** Main result: when every failure finds no lock on its key or completes a set, CheckVerify
      answers, to the second, as the unpruned log of failures would. */
  lemma ChecksAsLogged(run: seq<Call>, k: string, now: int)
    requires Timed(run) && Disciplined(run) && Ended(run, now)
    ensures Agrees(run, k, now)
  {
    LengthGuardUnreachable(run, k, now);
    if run != [] {
      MirrorsRun(run, k);
      MirrorsLater(After(run), k, FailuresOf(run, k), Clock(run), now);
    }
  }
}
