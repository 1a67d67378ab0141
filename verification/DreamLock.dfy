/** Serializing passes within a process and across instances (internal/dreaming/lock.go:31-82,
    internal/dreaming/runner.go:53-72, 213-277). */
module DreamLock {
  import opened Provider

  /** A database session: the instance whose pool it belongs to, and its number there. */
  datatype Conn = Conn(instance: nat, number: nat)

  datatype Record = Record(failed: bool)

  /** What the runner keeps under its mutex. */
  datatype Claim = Claim(running: bool, owner: string, last: map<string, Record>)

  const UNCLAIMED := Claim(false, "", map[])

  // ---- Specification ---------------------------------------------------------------------

  function Begun(c: Claim, owner: string): Claim {
    if c.running then c else c.(running := true, owner := owner)
  }

  function Aborted(c: Claim): Claim {
    c.(running := false, owner := "")
  }

  function Finished(c: Claim, owner: string, r: Record): Claim {
    c.(running := false, owner := "", last := c.last[owner := r])
  }

  /** The advisory lock as a session holds it: once, and `again` more times. It must be given
      up as often as it was taken. */
  datatype Held = Held(conn: Conn, again: nat)

  datatype LockAnswer = LockAnswer(holder: Option<Held>, conn: Option<Conn>, got: bool, err: bool)

  /** The session may take the lock. */
  predicate Free(holder: Option<Held>, c: Conn) {
    holder.None? || holder.value.conn == c
  }

  /** pg_try_advisory_lock on a session; one that already holds the lock takes it once more. */
  function Taken(holder: Option<Held>, c: Conn): Option<Held> {
    if holder.None? then Some(Held(c, 0))
    else if holder.value.conn == c then Some(Held(c, holder.value.again + 1))
    else holder
  }

  /** pg_advisory_unlock on a session. */
  function Given(holder: Option<Held>, c: Conn): Option<Held> {
    if holder.None? || holder.value.conn != c then holder
    else if holder.value.again == 0 then None
    else Some(Held(c, holder.value.again - 1))
  }

  /** How a query goes: answered, failed without an effect, or failed after the server carried
      it out, with the session living on. */
  datatype Query = Answered | Failed | Unheard

  /** Taking the lock on a session of the pool. `candidate` is None when the pool has no
      connection to give. */
  function Acquire(holder: Option<Held>, conn: Option<Conn>, candidate: Option<Conn>, query: Query): LockAnswer {
    if conn.Some? then LockAnswer(holder, conn, true, false)
    else if candidate.None? then LockAnswer(holder, conn, false, true)
    else
      match query
      case Failed => LockAnswer(holder, conn, false, true)
      case Unheard => LockAnswer(Taken(holder, candidate.value), conn, false, true)
      case Answered =>
        if Free(holder, candidate.value) then LockAnswer(Taken(holder, candidate.value), candidate, true, false)
        else LockAnswer(holder, conn, false, false)
  }

  /** Giving the lock up; `stuck` when the unlock fails and the session lives on, so that the
      lock stays with it. */
  function Unlocked(holder: Option<Held>, conn: Option<Conn>, stuck: bool): Option<Held> {
    if conn.Some? && !stuck then Given(holder, conn.value) else holder
  }

  /** A session gives back exactly what it took: whatever was left with it before stays. */
  lemma GivesBack(holder: Option<Held>, candidate: Conn)
    ensures var a := Acquire(holder, None, Some(candidate), Answered);
            a.got ==> Unlocked(a.holder, a.conn, false) == holder
  {
  }

  // ---- The source's objects ------------------------------------------------------------------

  class Database {
    var holder: Option<Held>

    constructor ()
      ensures holder == None
    {
      holder := None;
    }

    method TryAdvisoryLock(c: Conn) returns (got: bool)
      modifies this
      ensures got <==> Free(old(holder), c)
      ensures holder == Taken(old(holder), c)
    {
      got := true;
      if holder.None? {
        holder := Some(Held(c, 0));
      } else if holder.value.conn == c {
        holder := Some(Held(c, holder.value.again + 1));
      } else {
        got := false;
      }
    }

    method AdvisoryUnlock(c: Conn, stuck: bool)
      modifies this
      ensures holder == Unlocked(old(holder), Some(c), stuck)
    {
      if stuck || holder.None? || holder.value.conn != c {
        return;
      }
      holder := if holder.value.again == 0 then None else Some(Held(c, holder.value.again - 1));
    }
  }

  class PGAdvisoryLock {
    const db: Database
    var conn: Option<Conn>

    constructor (db: Database)
      ensures this.db == db && conn == None
    {
      this.db := db;
      conn := None;
    }

    method TryAcquire(candidate: Option<Conn>, query: Query) returns (ok: bool, err: bool)
      modifies this, db
      ensures LockAnswer(db.holder, conn, ok, err) == Acquire(old(db.holder), old(conn), candidate, query)
    {
      if conn.Some? {
        return true, false;
      }
      if candidate.None? || query.Failed? {
        return false, true;
      }
      var got := db.TryAdvisoryLock(candidate.value);
      if query.Unheard? {
        return false, true;
      }
      if !got {
        return false, false;
      }
      conn := candidate;
      return true, false;
    }

    method Release(stuck: bool)
      modifies this, db
      ensures conn == None && db.holder == Unlocked(old(db.holder), old(conn), stuck)
    {
      if conn.None? {
        return;
      }
      db.AdvisoryUnlock(conn.value, stuck);
      conn := None;
    }
  }

  /** Without a lock the runner serializes only its own process. */
  class Runner {
    const lock: PGAdvisoryLock?
    var running: bool
    var owner: string
    var last: map<string, Record>

    function Value(): Claim
      reads this
    {
      Claim(running, owner, last)
    }

    constructor (lock: PGAdvisoryLock?)
      ensures this.lock == lock && Value() == UNCLAIMED
    {
      this.lock := lock;
      running, owner, last := false, "", map[];
    }

    method Begin(who: string) returns (ok: bool)
      modifies this
      ensures ok == !old(running) && Value() == Begun(old(Value()), who)
    {
      if running {
        return false;
      }
      running := true;
      owner := who;
      return true;
    }

    method Abort()
      modifies this
      ensures Value() == Aborted(old(Value()))
    {
      running := false;
      owner := "";
    }

    /** Take the cross-instance lock; the claim is undone when it cannot be taken. */
    method ClaimCrossInstance(candidate: Option<Conn>, query: Query) returns (ok: bool, err: bool)
      modifies this, lock, if lock == null then {} else {lock.db}
      ensures lock == null ==> ok && !err && Value() == old(Value())
      ensures lock != null ==>
                LockAnswer(lock.db.holder, lock.conn, ok, err) ==
                  Acquire(old(lock.db.holder), old(lock.conn), candidate, query) &&
                Value() == if ok then old(Value()) else Aborted(old(Value()))
    {
      if lock == null {
        return true, false;
      }
      ok, err := lock.TryAcquire(candidate, query);
      if err || !ok {
        Abort();
      }
    }

    /** The cross-instance lock goes first: a waiting caller can start the next pass at once. */
    method Finish(who: string, r: Record, stuck: bool)
      modifies this, lock, if lock == null then {} else {lock.db}
      ensures Value() == Finished(old(Value()), who, r)
      ensures lock != null ==>
                lock.conn == None && lock.db.holder == Unlocked(old(lock.db.holder), old(lock.conn), stuck)
    {
      if lock != null {
        lock.Release(stuck);
      }
      running := false;
      owner := "";
      last := last[who := r];
    }
  }
}
