/**
  The server's event log: a 256-slot ring that drops its oldest event when full, proved to be a queue of the
  newest undrained events.
  */
module EventRings {
  const CAPACITY: nat := 256

  /** The level filter: traces are recorded for all players or for one. */
  predicate Records(logLevel: int, tracePlayer: int, level: int, player: int) {
    level <= logLevel && (level != 3 || tracePlayer < 0 || tracePlayer == player)
  }

  // The queue.

  /** Logging when the queue is full drops the oldest event. */
  function Logged<T>(q: seq<T>, e: T): (r: seq<T>)
    ensures |q| <= CAPACITY ==> |r| <= CAPACITY
  {
    if |q| >= CAPACITY then q[1..] + [e] else q + [e]
  }

  datatype Action<T> = Log(event: T) | Drain

  /** A run of the queue: what is queued, every event ever logged, and how many were drained and dropped. */
  datatype Tally<T> = Tally(queue: seq<T>, logged: seq<T>, drained: nat, dropped: nat)

  function Act<T>(t: Tally<T>, a: Action<T>): Tally<T> {
    match a
    case Log(e) => Tally(Logged(t.queue, e), t.logged + [e], t.drained,
      t.dropped + if |t.queue| >= CAPACITY then 1 else 0)
    case Drain => if t.queue == [] then t else Tally(t.queue[1..], t.logged, t.drained + 1, t.dropped)
  }

  function Acts<T>(acts: seq<Action<T>>): Tally<T> {
    if acts == [] then Tally([], [], 0, 0) else Act(Acts(acts[..|acts| - 1]), acts[|acts| - 1])
  }

  /** After any run of logging and draining, the queue is exactly the newest part of what was logged, at most 256
      events of it, and every logged event has been drained, dropped or is still queued. */
  lemma {:induction false} NewestAreQueued<T>(acts: seq<Action<T>>)
    ensures var t := Acts(acts);
      && |t.queue| <= CAPACITY
      && |t.logged| == t.drained + t.dropped + |t.queue|
      && t.queue == t.logged[|t.logged| - |t.queue|..]
  {
    if acts == [] {
    } else {
      NewestAreQueued(acts[..|acts| - 1]);
      var t, t' := Acts(acts[..|acts| - 1]), Acts(acts);
      var n := |t.logged| - |t.queue|;
      match acts[|acts| - 1] {
        case Log(e) =>
          assert t'.logged[n..] == t.queue + [e];
          if |t.queue| >= CAPACITY {
            assert t'.logged[n + 1..] == t'.logged[n..][1..];
          }
        case Drain =>
          if t.queue != [] {
            assert t.logged[n + 1..] == t.logged[n..][1..];
          }
      }
    }
  }

  // The ring.

  /** The events from `head` on, wrapping around the end of the array. */
  function Ring<T>(a: seq<T>, head: nat, count: nat): (s: seq<T>)
    requires |a| == CAPACITY && head < CAPACITY && count <= CAPACITY
    ensures |s| == count
    ensures forall k :: 0 <= k < count ==> s[k] == a[(head + k) % CAPACITY]
  {
    seq(count, k requires 0 <= k < count => a[(head + k) % CAPACITY])
  }

  lemma RingDropsFirst<T>(a: seq<T>, head: nat, count: nat)
    requires |a| == CAPACITY && head < CAPACITY && 0 < count <= CAPACITY
    ensures Ring(a, (head + 1) % CAPACITY, count - 1) == Ring(a, head, count)[1..]
    ensures Ring(a, head, count)[0] == a[head]
  {
  }

  lemma RingAppends<T>(a: seq<T>, head: nat, count: nat, e: T)
    requires |a| == CAPACITY && head < CAPACITY && count < CAPACITY
    ensures Ring(a[(head + count) % CAPACITY := e], head, count + 1) == Ring(a, head, count) + [e]
  {
  }

  class EventRing<T> {
    const logLevel: int
    const tracePlayer: int
    const events: array<T>
    var head: nat
    var count: nat
    var dropped: nat

    ghost predicate Valid()
      reads this
    {
      events.Length == CAPACITY && head < CAPACITY && count <= CAPACITY
    }

    ghost function Queued(): seq<T>
      requires Valid()
      reads this, events
    {
      Ring(events[..], head, count)
    }

    constructor (blank: T, logLevel: int, tracePlayer: int)
      ensures Valid() && fresh(events) && Queued() == [] && dropped == 0
    {
      this.logLevel, this.tracePlayer := logLevel, tracePlayer;
      events := new T[CAPACITY](i => blank);
      head, count, dropped := 0, 0, 0;
    }

    method LogEvent(level: int, player: int, e: T)
      requires Valid()
      modifies this, events
      ensures Valid()
      ensures if Records(logLevel, tracePlayer, level, player)
        then Queued() == Logged(old(Queued()), e)
             && dropped == old(dropped) + if |old(Queued())| >= CAPACITY then 1 else 0
        else Queued() == old(Queued()) && dropped == old(dropped)
    {
      if level > logLevel || (level == 3 && tracePlayer >= 0 && tracePlayer != player) {
        return;
      }
      if count == CAPACITY {
        RingDropsFirst(events[..], head, count);
        head, count, dropped := (head + 1) % CAPACITY, count - 1, dropped + 1;
      }
      ghost var a := events[..];
      RingAppends(a, head, count, e);
      events[(head + count) % CAPACITY] := e;
      assert events[..] == a[(head + count) % CAPACITY := e];
      count := count + 1;
    }

    method NextEvent() returns (found: bool, e: T)
      requires Valid()
      modifies this`head, this`count
      ensures Valid()
      ensures found == (old(Queued()) != [])
      ensures found ==> e == old(Queued())[0] && Queued() == old(Queued())[1..]
      ensures !found ==> Queued() == old(Queued())
    {
      e := events[head];
      if count == 0 {
        return false, e;
      }
      RingDropsFirst(events[..], head, count);
      head, count := (head + 1) % CAPACITY, count - 1;
      found := true;
    }
  }
}
