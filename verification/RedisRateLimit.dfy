/** The Redis token bucket: a script that refills by elapsed time and takes one token, kept in two
    keys with an expiry. Times given to the script are seconds; Redis expires keys by milliseconds. */
module RedisRateLimit {
  import opened Options
  import opened Durations

  const MILLIS := 1000

  /** A string key with the millisecond its expiry falls due. */
  datatype Cell<V> = Cell(value: V, expiresAt: int)

  /** The two keys of one limiter key, while both exist. */
  datatype Stored = Stored(tokens: real, stamp: int)

  datatype Answer = Answer(allowed: bool, remaining: int, reset: int)

  datatype Outcome = Done(answer: Answer) | ScriptError

  function Min(a: real, b: real): real { if a < b then a else b }

  /** What the script works from: nothing stored means a full bucket stamped now. */
  function Initial(st: Option<Stored>, limit: int, now: int): Stored {
    if st.None? then Stored(limit as real, now) else st.value
  }

  function Refill(s: Stored, limit: int, window: int, now: int): real
    requires window > 0
  {
    Min(limit as real, s.tokens + (now - s.stamp) as real * (limit as real / window as real))
  }

  predicate Admits(st: Option<Stored>, limit: int, window: int, now: int)
    requires window > 0
  {
    Refill(Initial(st, limit, now), limit, window, now) >= 1.0
  }

  function Next(st: Option<Stored>, limit: int, window: int, now: int): Stored
    requires window > 0
  {
    var level := Refill(Initial(st, limit, now), limit, window, now);
    Stored(if level >= 1.0 then level - 1.0 else level, now)
  }

  function Reply(st: Option<Stored>, limit: int, window: int, now: int): Answer
    requires window > 0
  {
    Answer(Admits(st, limit, window, now), Next(st, limit, window, now).tokens.Floor,
           Initial(st, limit, now).stamp + window)
  }

  class RedisRateLimiter {
    const keyPrefix: string
    const defaultLimit: int
    const defaultTTL: int
    var tokens: map<string, Cell<real>>
    var stamps: map<string, Cell<int>>

    /** The two keys are always written and deleted together. */
    ghost predicate Valid()
      reads this
    {
      && defaultLimit > 0 && defaultTTL > 0
      && tokens.Keys == stamps.Keys
      && forall k :: k in tokens ==> tokens[k].expiresAt == stamps[k].expiresAt
    }

    /** What a script run at this millisecond finds under a Redis key. */
    function Found(k: string, millis: int): Option<Stored>
      reads this
    {
      if k in tokens && k in stamps && millis < tokens[k].expiresAt
      then Some(Stored(tokens[k].value, stamps[k].value)) else None
    }

    function Lookup(key: string, millis: int): Option<Stored>
      reads this
    {
      Found(keyPrefix + key, millis)
    }

    constructor (keyPrefix: string, defaultLimit: int, defaultTTL: int)
      ensures Valid()
      ensures forall k, t :: Lookup(k, t) == None
      ensures this.defaultLimit == (if defaultLimit <= 0 then 60 else defaultLimit)
      ensures this.defaultTTL == if defaultTTL <= 0 then 60 * SECOND else defaultTTL
    {
      this.keyPrefix := if keyPrefix == "" then "ratelimit:" else keyPrefix;
      this.defaultLimit := if defaultLimit <= 0 then 60 else defaultLimit;
      this.defaultTTL := if defaultTTL <= 0 then 60 * SECOND else defaultTTL;
      tokens, stamps := map[], map[];
    }

    /** The script: one atomic step. */
    method RunScript(k: string, limit: int, window: int, now: int, millis: int) returns (answer: Answer)
      requires Valid() && window > 0
      modifies this
      ensures Valid()
      ensures answer == Reply(old(Found(k, millis)), limit, window, now)
      ensures tokens == old(tokens)[k := Cell(Next(old(Found(k, millis)), limit, window, now).tokens,
                                              millis + 2 * window * MILLIS)]
      ensures stamps == old(stamps)[k := Cell(now, millis + 2 * window * MILLIS)]
    {
      var level, lastUpdate := limit as real, now;
      if k in tokens && millis < tokens[k].expiresAt {
        level, lastUpdate := tokens[k].value, stamps[k].value;
      }
      ghost var st := Found(k, millis);
      assert Initial(st, limit, now) == Stored(level, lastUpdate);
      var elapsed := now - lastUpdate;
      var rate := limit as real / window as real;
      level := Min(limit as real, level + elapsed as real * rate);
      assert level == Refill(Initial(st, limit, now), limit, window, now);
      hide Refill; hide Min;
      var allowed := false;
      if level >= 1.0 {
        level := level - 1.0;
        allowed := true;
      }
      tokens := tokens[k := Cell(level, millis + 2 * window * MILLIS)];
      stamps := stamps[k := Cell(now, millis + 2 * window * MILLIS)];
      answer := Answer(allowed, level.Floor, lastUpdate + window);
    }

    /** A window under a second reaches Redis as an expiry of zero, which it refuses. */
    method AllowWithInfo(key: string, limit: int, window: int, now: int, millis: int) returns (res: Outcome)
      requires Valid()
      modifies this
      ensures Valid()
      ensures res.ScriptError? <==> (if window <= 0 then defaultTTL else window) < 1_000_000_000
      ensures res.ScriptError? ==> tokens == old(tokens) && stamps == old(stamps)
      ensures res.Done? ==>
                var lim, win := if limit <= 0 then defaultLimit else limit, if window <= 0 then defaultTTL else window;
                var w, st := WholeSeconds(win), old(Lookup(key, millis));
                && res.answer == Reply(st, lim, w, now)
                && (forall t :: Lookup(key, t) ==
                      if t < millis + 2_000 * w then Some(Next(st, lim, w, now)) else None)
      ensures forall other, t :: other != key ==> Lookup(other, t) == old(Lookup(other, t))
    {
      var lim := if limit <= 0 then defaultLimit else limit;
      var win := if window <= 0 then defaultTTL else window;
      var w := WholeSeconds(win);
      if w == 0 {
        return ScriptError;
      }
      OtherKeys(keyPrefix, key);
      var answer := RunScript(keyPrefix + key, lim, w, now, millis);
      return Done(answer);
    }

    method Allow(key: string, limit: int, window: int, now: int, millis: int) returns (allowed: bool, err: bool)
      requires Valid()
      modifies this
      ensures Valid()
      ensures err <==> (if window <= 0 then defaultTTL else window) < 1_000_000_000
      ensures err ==> !allowed && tokens == old(tokens) && stamps == old(stamps)
      ensures !err ==>
                var lim, win := if limit <= 0 then defaultLimit else limit, if window <= 0 then defaultTTL else window;
                var w, st := WholeSeconds(win), old(Lookup(key, millis));
                && allowed == Admits(st, lim, w, now)
                && (forall t :: Lookup(key, t) ==
                      if t < millis + 2_000 * w then Some(Next(st, lim, w, now)) else None)
      ensures forall other, t :: other != key ==> Lookup(other, t) == old(Lookup(other, t))
    {
      var lim := if limit <= 0 then defaultLimit else limit;
      var win := if window <= 0 then defaultTTL else window;
      var w := WholeSeconds(win);
      if w == 0 {
        return false, true;
      }
      OtherKeys(keyPrefix, key);
      var answer := RunScript(keyPrefix + key, lim, w, now, millis);
      return answer.allowed, false;
    }

    method Reset(key: string)
      requires Valid()
      modifies this
      ensures Valid()
      ensures forall t :: Lookup(key, t) == None
      ensures forall other, t :: other != key ==> Lookup(other, t) == old(Lookup(other, t))
    {
      OtherKeys(keyPrefix, key);
      var k := keyPrefix + key;
      tokens, stamps := tokens - {k}, stamps - {k};
    }
  }

  /** Different keys stay different behind the prefix. */
  lemma {:induction false} OtherKeys(prefix: string, key: string)
    ensures forall other :: prefix + other == prefix + key ==> other == key
  {
    forall other | prefix + other == prefix + key ensures other == key {
      assert other == (prefix + other)[|prefix|..] && key == (prefix + key)[|prefix|..];
    }
  }
}
