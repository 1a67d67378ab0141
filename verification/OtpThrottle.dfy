/** Throttling one-time codes with pruned sliding windows
    (internal/identity/otpthrottle.go:28-199). Times are in seconds. */
module OtpThrottle {
  import opened Sets

  const MAX_VERIFY_FAILURES := 5
  const VERIFY_WINDOW := 15 * 60
  const VERIFY_LOCKOUT := 15 * 60
  const DAILY_PER_PHONE := 10
  const DAILY_PER_IP := 30
  const DAY := 24 * 60 * 60
  const MAX_KEYS := 100_000

  type Times = map<string, seq<int>>

  datatype State = State(verify: Times, locked: map<string, int>, sentPhone: Times, sentIP: Times)

  const EMPTY := State(map[], map[], map[], map[])

  // ---- Specification ---------------------------------------------------------------------

  /** The entries inside the window that ends now. */
  function Recent(times: seq<int>, now: int, window: int): seq<int> {
    if times == [] then [] else
    var rest := Recent(times[..|times| - 1], now, window);
    if times[|times| - 1] > now - window then rest + [times[|times| - 1]] else rest
  }

  function Get(m: Times, k: string): seq<int> {
    if k in m then m[k] else []
  }

  function Pruned(m: Times, k: string, now: int, window: int): Times {
    var kept := Recent(Get(m, k), now, window);
    if kept == [] then m - {k} else m[k := kept]
  }

  function Swept(m: Times, now: int, window: int): Times {
    map k | k in m && Recent(m[k], now, window) != [] :: Recent(m[k], now, window)
  }

  function Expired(locked: map<string, int>, now: int): set<string> {
    set k | k in locked && now >= locked[k]
  }

  function SweptAll(s: State, now: int): State {
    var dead := Expired(s.locked, now);
    State(Swept(s.verify, now, VERIFY_WINDOW) - dead, s.locked - dead, Swept(s.sentPhone, now, DAY),
          Swept(s.sentIP, now, DAY))
  }

  datatype Which = Verify | SentPhone | SentIP

  function MapOf(s: State, which: Which): Times {
    match which
    case Verify => s.verify
    case SentPhone => s.sentPhone
    case SentIP => s.sentIP
  }

  datatype Admission = Admission(ok: bool, state: State)

  /** A key may grow its map below the cap; at the cap only after a sweep made room, or when
      it is tracked already. */
  function Admit(s: State, which: Which, k: string, now: int): Admission {
    if |MapOf(s, which)| < MAX_KEYS then Admission(true, s)
    else
      var s' := SweptAll(s, now);
      Admission(k in MapOf(s', which) || |MapOf(s', which)| < MAX_KEYS, s')
  }

  datatype Verdict = Verdict(ok: bool, retryAfter: int)

  /** The state CheckVerify leaves: an expired lock takes the key's history with it. */
  function Checked(s: State, k: string, now: int): State {
    if k in s.locked && now < s.locked[k] then s
    else
      var s' := if k in s.locked then s.(locked := s.locked - {k}, verify := s.verify - {k}) else s;
      s'.(verify := Pruned(s'.verify, k, now, VERIFY_WINDOW))
  }

  function CheckAnswer(s: State, k: string, now: int): Verdict {
    if k in s.locked && now < s.locked[k] then Verdict(false, s.locked[k] - now)
    else if |Get(Checked(s, k, now).verify, k)| >= MAX_VERIFY_FAILURES then Verdict(false, VERIFY_LOCKOUT)
    else Verdict(true, 0)
  }

  function Appended(m: Times, k: string, now: int): Times {
    m[k := Get(m, k) + [now]]
  }

  function FailedState(s: State, k: string, now: int): State {
    var a := Admit(s.(verify := Pruned(s.verify, k, now, VERIFY_WINDOW)), Verify, k, now);
    if !a.ok then a.state
    else
      var v := Appended(a.state.verify, k, now);
      a.state.(verify := v,
               locked := if |v[k]| >= MAX_VERIFY_FAILURES then a.state.locked[k := now + VERIFY_LOCKOUT]
                         else a.state.locked)
  }

  function Succeeded(s: State, k: string): State {
    s.(verify := s.verify - {k}, locked := s.locked - {k})
  }

  function SendChecked(s: State, phone: string, ip: string, now: int): State {
    s.(sentPhone := Pruned(s.sentPhone, phone, now, DAY), sentIP := Pruned(s.sentIP, ip, now, DAY))
  }

  function SendAnswer(s: State, phone: string, ip: string, now: int): bool {
    |Recent(Get(s.sentPhone, phone), now, DAY)| < DAILY_PER_PHONE &&
    |Recent(Get(s.sentIP, ip), now, DAY)| < DAILY_PER_IP
  }

  function PhoneRecorded(s: State, phone: string, now: int): State {
    var a := Admit(s, SentPhone, phone, now);
    if a.ok then a.state.(sentPhone := Appended(a.state.sentPhone, phone, now)) else a.state
  }

  function IPRecorded(s: State, ip: string, now: int): State {
    var a := Admit(s, SentIP, ip, now);
    if a.ok then a.state.(sentIP := Appended(a.state.sentIP, ip, now)) else a.state
  }

  // ---- The source's object -----------------------------------------------------------------

  class OTPThrottler {
    var verify: Times
    var locked: map<string, int>
    var sentPhone: Times
    var sentIP: Times

    function Value(): State
      reads this
    {
      State(verify, locked, sentPhone, sentIP)
    }

    constructor ()
      ensures Value() == EMPTY
    {
      verify, locked, sentPhone, sentIP := map[], map[], map[], map[];
    }

    method CheckVerify(k: string, now: int) returns (ok: bool, retryAfter: int)
      modifies this
      ensures Value() == Checked(old(Value()), k, now) && Verdict(ok, retryAfter) == CheckAnswer(old(Value()), k, now)
    {
      if k in locked {
        if now < locked[k] {
          return false, locked[k] - now;
        }
        locked := locked - {k};
        verify := verify - {k};
      }
      verify := Prune(verify, k, now, VERIFY_WINDOW);
      if |Get(verify, k)| >= MAX_VERIFY_FAILURES {
        return false, VERIFY_LOCKOUT;
      }
      return true, 0;
    }

    method FailVerify(k: string, now: int)
      modifies this
      ensures Value() == FailedState(old(Value()), k, now)
    {
      verify := Prune(verify, k, now, VERIFY_WINDOW);
      var admitted := AdmitKey(Verify, k, now);
      if !admitted {
        return;
      }
      verify := Appended(verify, k, now);
      if |verify[k]| >= MAX_VERIFY_FAILURES {
        locked := locked[k := now + VERIFY_LOCKOUT];
      }
    }

    method SuccessVerify(k: string)
      modifies this
      ensures Value() == Succeeded(old(Value()), k)
    {
      verify := verify - {k};
      locked := locked - {k};
    }

    method AllowSend(phone: string, ip: string, now: int) returns (ok: bool)
      modifies this
      ensures Value() == SendChecked(old(Value()), phone, ip, now) && ok == SendAnswer(old(Value()), phone, ip, now)
    {
      sentPhone := Prune(sentPhone, phone, now, DAY);
      sentIP := Prune(sentIP, ip, now, DAY);
      if |Get(sentPhone, phone)| >= DAILY_PER_PHONE {
        return false;
      }
      if |Get(sentIP, ip)| >= DAILY_PER_IP {
        return false;
      }
      return true;
    }

    method RecordSend(phone: string, ip: string, now: int)
      modifies this
      ensures Value() == IPRecorded(PhoneRecorded(old(Value()), phone, now), ip, now)
    {
      var admitted := AdmitKey(SentPhone, phone, now);
      if admitted {
        sentPhone := Appended(sentPhone, phone, now);
      }
      admitted := AdmitKey(SentIP, ip, now);
      if admitted {
        sentIP := Appended(sentIP, ip, now);
      }
    }

    method AdmitKey(which: Which, k: string, now: int) returns (ok: bool)
      modifies this
      ensures Admission(ok, Value()) == Admit(old(Value()), which, k, now)
    {
      if |MapOf(Value(), which)| < MAX_KEYS {
        return true;
      }
      SweepAll(now);
      if k in MapOf(Value(), which) {
        return true;
      }
      return |MapOf(Value(), which)| < MAX_KEYS;
    }

    method SweepAll(now: int)
      modifies this
      ensures Value() == SweptAll(old(Value()), now)
    {
      verify := Sweep(verify, now, VERIFY_WINDOW);
      locked, verify := DropExpired(locked, verify, now);
      sentPhone := Sweep(sentPhone, now, DAY);
      sentIP := Sweep(sentIP, now, DAY);
    }
  }

  /** Drop the entries of one key outside the window, and the key with its last one. */
  method Prune(m: Times, k: string, now: int, window: int) returns (r: Times)
    ensures r == Pruned(m, k, now, window)
  {
    var times := Get(m, k);
    var kept := [];
    for i := 0 to |times|
      invariant kept == Recent(times[..i], now, window)
    {
      assert times[..i + 1][..i] == times[..i];
      if times[i] > now - window {
        kept := kept + [times[i]];
      }
    }
    assert times[..|times|] == times;
    if |kept| == 0 {
      r := m - {k};
    } else {
      r := m[k := kept];
    }
  }

  /** Prune every key, in any order. */
  method Sweep(m: Times, now: int, window: int) returns (r: Times)
    ensures r == Swept(m, now, window)
  {
    r := m;
    var rest := m.Keys;
    while rest != {}
      invariant rest <= m.Keys && forall k :: k in rest ==> k in r && r[k] == m[k]
      invariant forall k :: k !in rest ==>
                  (k in r <==> k in Swept(m, now, window)) && (k in r ==> r[k] == Swept(m, now, window)[k])
      decreases |rest|
    {
      var k := Pick(rest);
      r := Prune(r, k, now, window);
      rest := rest - {k};
    }
  }

  /** Drop the expired locks and what was counted for them. */
  method DropExpired(locked0: map<string, int>, verify0: Times, now: int)
    returns (locked: map<string, int>, verify: Times)
    ensures locked == locked0 - Expired(locked0, now) && verify == verify0 - Expired(locked0, now)
  {
    locked, verify := locked0, verify0;
    var rest := locked0.Keys;
    while rest != {}
      invariant rest <= locked0.Keys
      invariant locked == locked0 - (Expired(locked0, now) - rest) && verify == verify0 - (Expired(locked0, now) - rest)
      decreases |rest|
    {
      var k := Pick(rest);
      if now >= locked[k] {
        locked := locked - {k};
        verify := verify - {k};
      }
      rest := rest - {k};
    }
    assert Expired(locked0, now) - rest == Expired(locked0, now);
  }
}
