/** The lease lock: SET NX with an expiry, and scripts that delete or re-expire a key only while it
    stores the caller's value. Times are Redis milliseconds. */
module RedisLock {
  import opened Options

  /** `deadline == None`: a key set with a zero expiry never expires. */
  datatype Entry = Entry(value: string, deadline: Option<int>)

  /** Redis holds dead keys until it evicts them; no command sees them. */
  datatype Server = Server(keys: map<string, Entry>, now: int)

  datatype Error = LockNotAcquired | LockNotHeld | ContextDone

  datatype Outcome = Ok | Failed(error: Error)

  predicate Unexpired(deadline: Option<int>, now: int) { deadline.None? || now < deadline.value }

  predicate Live(s: Server, key: string) { key in s.keys && Unexpired(s.keys[key].deadline, s.now) }

  predicate HeldBy(s: Server, key: string, value: string) { Live(s, key) && s.keys[key].value == value }

  function Deadline(s: Server, ttl: nat): Option<int> { if ttl == 0 then None else Some(s.now + ttl) }

  function Locked(s: Server, key: string, value: string, ttl: nat): Server {
    s.(keys := s.keys[key := Entry(value, Deadline(s, ttl))])
  }

  function Deleted(s: Server, key: string): Server { s.(keys := s.keys - {key}) }

  /** PEXPIRE with a time that is not positive deletes the key. */
  function ReExpired(s: Server, key: string, ms: int): Server
    requires key in s.keys
  {
    if ms <= 0 then Deleted(s, key) else s.(keys := s.keys[key := s.keys[key].(deadline := Some(s.now + ms))])
  }

  function SetNX(s: Server, key: string, value: string, ttl: nat): Server {
    if Live(s, key) then s else Locked(s, key, value, ttl)
  }

  function CompareAndDelete(s: Server, key: string, value: string): Server {
    if HeldBy(s, key, value) then Deleted(s, key) else s
  }

  function CompareAndExpire(s: Server, key: string, value: string, ms: int): Server {
    if HeldBy(s, key, value) then ReExpired(s, key, ms) else s
  }

  /** A holder whose value the live key stores frees the key, and frees nothing else; whoever else
      releases changes nothing. */
  lemma {:induction false} ReleaseFreesOwnKey(s: Server, key: string, value: string)
    ensures var s' := CompareAndDelete(s, key, value);
      var own := key in s.keys && s.keys[key].value == value
        && (s.keys[key].deadline.None? || s.now < s.keys[key].deadline.value);
      && s'.now == s.now
      && (forall k :: k in s'.keys <==> k in s.keys && !(own && k == key))
      && (forall k :: k in s'.keys ==> s'.keys[k] == s.keys[k])
  {
  }

  /** A key set with no time to live is there for ever, any other for exactly that long. */
  lemma {:induction false} LivesForItsTime(s: Server, key: string, value: string, ttl: nat, later: nat)
    requires !Live(s, key)
    ensures var s' := SetNX(s, key, value, ttl);
      && HeldBy(s', key, value)
      && (Live(s'.(now := s.now + later), key) <==> ttl == 0 || later < ttl)
  {
  }

  /** Extending starts the time anew, and a time that is not positive ends it. */
  lemma {:induction false} ExtensionStartsAnew(s: Server, key: string, value: string, ms: int, later: nat)
    requires HeldBy(s, key, value)
    ensures Live(CompareAndExpire(s, key, value, ms).(now := s.now + later), key) <==> later < ms
  {
  }

  class Redis {
    var keys: map<string, Entry>
    var now: int

    function State(): Server
      reads this
    {
      Server(keys, now)
    }

    constructor (s: Server)
      ensures State() == s
    {
      keys, now := s.keys, s.now;
    }

    /** Other clients, the clock and evictions: anything may have happened. */
    method Become(s: Server)
      modifies this
      ensures State() == s
    {
      keys, now := s.keys, s.now;
    }
  }

  class RedisLock {
    const client: Redis
    const key: string
    const value: string
    var ttl: int

    constructor (client: Redis, key: string, value: string, ttl: int)
      ensures this.client == client && this.key == key && this.value == value && this.ttl == ttl
    {
      this.client, this.key, this.value, this.ttl := client, key, value, ttl;
    }

    /** Deletes the key exactly while a live entry stores this lock's value. */
    method Release() returns (res: Outcome)
      modifies client
      ensures client.State() == CompareAndDelete(old(client.State()), key, value)
      ensures res == if old(HeldBy(client.State(), key, value)) then Ok else Failed(LockNotHeld)
      ensures var stored := key in old(client.keys) && old(client.keys)[key].value == value
                && Unexpired(old(client.keys)[key].deadline, old(client.now));
        client.keys == (if stored then old(client.keys) - {key} else old(client.keys)) && client.now == old(client.now)
    {
      if HeldBy(client.State(), key, value) {
        client.keys := client.keys - {key};
        return Ok;
      }
      return Failed(LockNotHeld);
    }

    method Extend(extension: int) returns (res: Outcome)
      modifies this`ttl, client
      ensures client.State() == CompareAndExpire(old(client.State()), key, value, extension)
      ensures res == if old(HeldBy(client.State(), key, value)) then Ok else Failed(LockNotHeld)
      ensures ttl == if res.Ok? then extension else old(ttl)
    {
      if !HeldBy(client.State(), key, value) {
        return Failed(LockNotHeld);
      }
      if extension <= 0 {
        client.keys := client.keys - {key};
      } else {
        client.keys := client.keys[key := client.keys[key].(deadline := Some(client.now + extension))];
      }
      ttl := extension;
      return Ok;
    }

    method IsHeld() returns (held: bool)
      ensures held == HeldBy(client.State(), key, value)
    {
      if !Live(client.State(), key) {
        return false;
      }
      return client.keys[key].value == value;
    }
  }

  class RedisLockManager {
    const client: Redis

    constructor (client: Redis)
      ensures this.client == client
    {
      this.client := client;
    }

    method AcquireLock(key: string, value: string, ttl: nat) returns (lock: RedisLock?, res: Outcome)
      modifies client
      ensures client.State() == SetNX(old(client.State()), key, value, ttl)
      ensures res == if old(Live(client.State(), key)) then Failed(LockNotAcquired) else Ok
      ensures res.Failed? ==> lock == null
      ensures res.Ok? ==>
                && lock != null && fresh(lock)
                && lock.client == client && lock.key == key && lock.value == value && lock.ttl == ttl
    {
      if Live(client.State(), key) {
        return null, Failed(LockNotAcquired);
      }
      client.keys := client.keys[key := Entry(value, Deadline(client.State(), ttl))];
      lock := new RedisLock(client, key, value, ttl);
      return lock, Ok;
    }

    /** `others(i, s)` is what the rest of the world makes of s during the wait after attempt i,
        `cancelled(i)` whether the context ends that wait. `seen` are the states attempted in. */
    method TryLockWithRetry(
        key: string, value: string, ttl: nat, maxRetries: int,
        others: (nat, Server) -> Server, cancelled: nat -> bool)
      returns (lock: RedisLock?, res: Outcome, ghost seen: seq<Server>)
      modifies client
      ensures |seen| <= if maxRetries < 0 then 0 else maxRetries
      ensures Waits(seen, old(client.State()), key, others, cancelled) && (maxRetries > 0 ==> seen != [])
      ensures res.Ok? ==>
                && lock != null && lock.client == client && lock.key == key && lock.value == value
                && fresh(lock) && seen != [] && !Live(seen[|seen| - 1], key)
                && client.State() == Locked(seen[|seen| - 1], key, value, ttl)
      ensures res.Failed? ==>
                && lock == null
                && (seen == [] ==> client.State() == old(client.State()))
                && (seen != [] ==>
                      && Live(seen[|seen| - 1], key)
                      && client.State() == if res == Failed(ContextDone) then others(|seen| - 1, seen[|seen| - 1])
                                           else seen[|seen| - 1])
      ensures res == Failed(LockNotAcquired) ==> maxRetries <= 0 || |seen| == maxRetries
      ensures res == Failed(ContextDone) ==> 0 < |seen| < maxRetries && cancelled(|seen| - 1)
      ensures res != Failed(LockNotHeld)
    {
      hide Waits; hide Live; hide Locked;
      ghost var start := client.State();
      seen := [];
      assert Waits([], start, key, others, cancelled) by { NoWait(start, key, others, cancelled); }
      var i := 0;
      while i < maxRetries
        invariant 0 <= i <= (if maxRetries < 0 then 0 else maxRetries) && |seen| == i
        invariant Waits(seen, start, key, others, cancelled)
        invariant i == 0 ==> client.State() == start
        invariant 0 < i ==> Live(seen[i - 1], key)
        invariant 0 < i < maxRetries ==> !cancelled(i - 1) && client.State() == others(i - 1, seen[i - 1])
        invariant 0 < i == maxRetries ==> client.State() == seen[i - 1]
      {
        OneAttemptMore(seen, start, key, others, cancelled, client.State());
        seen := seen + [client.State()];
        lock, res := AcquireLock(key, value, ttl);
        if res.Ok? {
          return;
        }
        if i < maxRetries - 1 {
          client.Become(others(i, client.State()));
          if cancelled(i) {
            return null, Failed(ContextDone), seen;
          }
        }
        i := i + 1;
      }
      return null, Failed(LockNotAcquired), seen;
    }
  }

  /** Every attempt but the last met a live key and was followed by a wait the context did not end. */
  ghost predicate Waits(
      seen: seq<Server>, start: Server, key: string, others: (nat, Server) -> Server, cancelled: nat -> bool)
  {
    && (seen != [] ==> seen[0] == start)
    && forall i :: 0 <= i < |seen| - 1 ==>
         Live(seen[i], key) && !cancelled(i) && seen[i + 1] == others(i, seen[i])
  }

  lemma {:induction false} NoWait(
      start: Server, key: string, others: (nat, Server) -> Server, cancelled: nat -> bool)
    ensures Waits([], start, key, others, cancelled)
  {
  }

  lemma {:induction false} OneAttemptMore(
      seen: seq<Server>, start: Server, key: string, others: (nat, Server) -> Server, cancelled: nat -> bool,
      s: Server)
    requires Waits(seen, start, key, others, cancelled)
    requires var n := |seen| - 1;
      if seen == [] then s == start else Live(seen[n], key) && !cancelled(n) && s == others(n, seen[n])
    ensures Waits(seen + [s], start, key, others, cancelled)
  {
  }
}
