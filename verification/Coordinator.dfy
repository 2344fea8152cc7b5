/** The matchmaking coordinator: every instance runs one sequential event loop that guards its handler
    with a lease on the event's environment. Times are milliseconds. */
module Coordinator {
  import opened RedisLock

  const LOCK_TTL := 5000
  const MAX_RETRIES := 3
  const RETRY_INTERVAL := 500
  const EVENT_TIMEOUT := 10000
  const LOCK_PREFIX := "matchmaking:lock:"

  datatype Event = Event(kind: string, environmentID: string, agentID: string)

  /** What the subscription loop can receive. */
  datatype Message = Closed | Garbage | Delivered(event: Event) | Stopped | ContextEnded

  function LockKey(environment: string): string { LOCK_PREFIX + environment }

  /** Environments are locked apart from each other. */
  lemma {:induction false} LockKeysApart(a: string, b: string)
    ensures LockKey(a) == LockKey(b) ==> a == b
    ensures LockKey(a) == "matchmaking:lock:" + a
  {
    assert a == LockKey(a)[|LOCK_PREFIX|..] && b == LockKey(b)[|LOCK_PREFIX|..];
  }

  /** The rest of the world until an event is received, in the wait after each attempt, and while the
      handler runs. */
  datatype World = World(
    waiting: Server -> Server, others: (nat, Server) -> Server, cancelled: nat -> bool, handling: Server -> Server)

  /** The events of the messages received before the loop ends. */
  function EventsHandled(messages: seq<Message>): seq<Event> {
    if messages == [] || messages[0].Stopped? || messages[0].ContextEnded? then []
    else (if messages[0].Delivered? then [messages[0].event] else []) + EventsHandled(messages[1..])
  }

  predicate Ends(m: Message) { m.Stopped? || m.ContextEnded? }

  predicate Going(messages: seq<Message>, n: nat)
    requires n <= |messages|
  {
    forall i :: 0 <= i < n ==> !Ends(messages[i])
  }

  /** Events delivered among the first n messages. */
  function DeliveredBefore(messages: seq<Message>, n: nat): nat
    requires n <= |messages|
  {
    if n == 0 then 0 else DeliveredBefore(messages, n - 1) + if messages[n - 1].Delivered? then 1 else 0
  }

  lemma {:induction false} HandledOneMore(messages: seq<Message>, m: Message)
    requires Going(messages, |messages|)
    ensures EventsHandled(messages + [m]) == EventsHandled(messages) + if m.Delivered? then [m.event] else []
    decreases |messages|
  {
    if messages == [] {
      assert [m][1..] == [];
    } else {
      assert (messages + [m])[1..] == messages[1..] + [m];
      HandledOneMore(messages[1..], m);
    }
  }

  lemma {:induction false} NothingAfterTheEnd(messages: seq<Message>, n: nat)
    requires n < |messages| && Going(messages, n) && Ends(messages[n])
    ensures EventsHandled(messages) == EventsHandled(messages[..n])
    decreases n
  {
    if n == 0 {
      assert messages[..0] == [];
    } else {
      assert messages[..n][1..] == messages[1..][..n - 1];
      NothingAfterTheEnd(messages[1..], n - 1);
    }
  }

  /** Until the loop ends every event delivered is handled, at the place its arrival gives it, whatever
      else comes in between; and nothing else is handled. */
  lemma {:induction false} EveryEventHasItsPlace(messages: seq<Message>, n: nat)
    requires n <= |messages| && Going(messages, n)
    ensures |EventsHandled(messages[..n])| == DeliveredBefore(messages, n)
    ensures forall i :: 0 <= i < n && messages[i].Delivered? ==>
              && DeliveredBefore(messages, i) < DeliveredBefore(messages, n)
              && EventsHandled(messages[..n])[DeliveredBefore(messages, i)] == messages[i].event
    ensures n < |messages| && Ends(messages[n]) ==> EventsHandled(messages) == EventsHandled(messages[..n])
    decreases n
  {
    if n == 0 {
      assert messages[..0] == [];
    } else {
      EveryEventHasItsPlace(messages, n - 1);
      assert messages[..n] == messages[..n - 1] + [messages[n - 1]];
      HandledOneMore(messages[..n - 1], messages[n - 1]);
    }
    if n < |messages| && Ends(messages[n]) { NothingAfterTheEnd(messages, n); }
  }

  /** One event: the attempts were made in the states `seen`. The handler runs exactly when the last of
      them finds the key free; then the lock is released, only while Redis still stores this
      instance's value. Otherwise the instance has changed nothing. */
  ghost predicate Round(
      instanceID: string, event: Event, world: World, before: Server, after: Server,
      seen: seq<Server>, handled: bool, failed: bool)
  {
    var k, last := LockKey(event.environmentID), |seen| - 1;
    && 0 < |seen| <= MAX_RETRIES && seen[0] == before
    && (forall i :: 0 <= i < last ==> Live(seen[i], k) && seen[i + 1] == world.others(i, seen[i]))
    && (handled <==> !Live(seen[last], k))
    && (handled ==>
          && !failed
          && after == CompareAndDelete(world.handling(Locked(seen[last], k, instanceID, LOCK_TTL)), k, instanceID))
    && (failed ==> |seen| < MAX_RETRIES && world.cancelled(last) && after == world.others(last, seen[last]))
    && (!handled && !failed ==> |seen| == MAX_RETRIES && after == seen[last])
  }

  ghost predicate SomeRound(instanceID: string, event: Event, world: World, before: Server, after: Server) {
    exists seen, handled, failed :: Round(instanceID, event, world, before, after, seen, handled, failed)
  }

  class MatchmakingCoordinator {
    const client: Redis
    const lockManager: RedisLockManager
    const instanceID: string

    ghost predicate Valid() { lockManager.client == client }

    constructor (client: Redis, instanceID: string)
      ensures Valid() && this.client == client && this.instanceID == instanceID
    {
      this.client, this.instanceID := client, instanceID;
      this.lockManager := new RedisLockManager(client);
    }

    method HandleEventWithLock(event: Event, world: World)
      returns (handled: bool, failed: bool, ghost seen: seq<Server>)
      requires Valid()
      modifies client
      ensures Round(instanceID, event, world, old(client.State()), client.State(), seen, handled, failed)
    {
      var lockKey := LockKey(event.environmentID);
      var lock, err;
      lock, err, seen :=
        lockManager.TryLockWithRetry(lockKey, instanceID, LOCK_TTL, MAX_RETRIES, world.others, world.cancelled);
      if err == Failed(LockNotAcquired) {
        return false, false, seen;
      }
      if err.Failed? {
        assert err.error.ContextDone?;
        return false, true, seen;
      }
      client.Become(world.handling(client.State()));
      var released := lock.Release();
      return true, false, seen;
    }

    /** Each event is handled to its end before the next message is looked at. */
    method Start(messages: seq<Message>, worlds: nat -> World)
      returns (handled: seq<Event>, ghost rounds: seq<(Server, Server)>)
      requires Valid()
      modifies client
      ensures handled == EventsHandled(messages)
      ensures InRounds(instanceID, old(client.State()), handled, worlds, rounds)
      ensures client.State() == EndOf(old(client.State()), rounds)
    {
      hide InRounds; hide Round; hide SomeRound; hide EndOf;
      assert EndOf(client.State(), []) == client.State() by { NoRound(instanceID, client.State(), worlds); }
      ghost var start := client.State();
      handled, rounds := [], [];
      NoRound(instanceID, start, worlds);
      var n := 0;
      while n < |messages|
        invariant 0 <= n <= |messages|
        invariant EventsHandled(messages) == handled + EventsHandled(messages[n..])
        invariant InRounds(instanceID, start, handled, worlds, rounds)
        invariant client.State() == EndOf(start, rounds)
      {
        var msg := messages[n];
        assert messages[n..][1..] == messages[n + 1..];
        n := n + 1;
        match msg
        case Closed => continue;
        case Garbage => continue;
        case Delivered(event) =>
          var world := worlds(|handled|);
          client.Become(world.waiting(client.State()));
          ghost var before := client.State();
          var ok, failed, seen := HandleEventWithLock(event, world);
          OneRoundMore(instanceID, start, handled, worlds, rounds, event, client.State(), seen, ok, failed);
          handled, rounds := handled + [event], rounds + [(before, client.State())];
        case Stopped => return;
        case ContextEnded => return;
      }
    }
  }

  /** What Redis holds after these rounds. */
  function EndOf(start: Server, rounds: seq<(Server, Server)>): Server {
    if rounds == [] then start else rounds[|rounds| - 1].1
  }

  /** One round an event, in order; between two of them the world does what it does while waiting. */
  ghost predicate InRounds(
      instanceID: string, start: Server, handled: seq<Event>, worlds: nat -> World, rounds: seq<(Server, Server)>)
  {
    && |rounds| == |handled|
    && forall n :: 0 <= n < |handled| ==>
         && rounds[n].0 == worlds(n).waiting(EndOf(start, rounds[..n]))
         && SomeRound(instanceID, handled[n], worlds(n), rounds[n].0, rounds[n].1)
  }

  lemma {:induction false} NoRound(instanceID: string, start: Server, worlds: nat -> World)
    ensures InRounds(instanceID, start, [], worlds, []) && EndOf(start, []) == start
  {
  }

  lemma {:induction false} OneRoundMore(
      instanceID: string, start: Server, handled: seq<Event>, worlds: nat -> World, rounds: seq<(Server, Server)>,
      event: Event, after: Server, seen: seq<Server>, ok: bool, failed: bool)
    requires InRounds(instanceID, start, handled, worlds, rounds)
    requires var world := worlds(|handled|);
      Round(instanceID, event, world, world.waiting(EndOf(start, rounds)), after, seen, ok, failed)
    ensures InRounds(instanceID, start, handled + [event], worlds,
                     rounds + [(worlds(|handled|).waiting(EndOf(start, rounds)), after)])
    ensures EndOf(start, rounds + [(worlds(|handled|).waiting(EndOf(start, rounds)), after)]) == after
  {
    var world := worlds(|handled|);
    var before := world.waiting(EndOf(start, rounds));
    assert SomeRound(instanceID, event, world, before, after);
    hide SomeRound; hide Round;
    var more := rounds + [(before, after)];
    forall n | 0 <= n <= |rounds| ensures more[..n] == rounds[..n] {}
    assert rounds[..|rounds|] == rounds;
  }
}
