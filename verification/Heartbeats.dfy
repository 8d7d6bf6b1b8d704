/** Who is heard from, and that exactly those who are not are dropped. */
module Heartbeats {
  import opened Words
  import opened Messages
  import opened Rooms
  import opened RoomInvariants
  import opened RoomSteps
  import opened RoomTheorems
  import opened RoomEffects

  /** The packet is a sign of life of the player in slot `i`: a PING, the PONG it owes, a movement that is stored,
      or the next command. */
  predicate Heard(r: Room, i: nat, from: nat, p: Packet)
    requires i < 4
  {
    && !r.closed && From(r, i, from, p)
    && (|| p.body.Ping?
        || (p.body.Pong? && r.players[i].ping != 0 && p.body.stamp == r.players[i].ping)
        || (p.body.Movement? && r.phase == Racing && r.players[i].status == PlayerRacing && Same(p.race, r.race)
            && Newer(p.number, r.players[i].stateSeq))
        || Next32(r, i, p))
  }

  /** The packet is the HELLO that seats a new player in slot `i`. */
  predicate Arrives(r: Room, i: nat, from: nat, p: Packet, token: nat)
    requires i < 4
  {
    && !r.closed && p.body.Hello? && token != 0 && Vacant(r, i)
    && TurnedAway(r, p.body.nonce, p.body.key) == []
    && forall k :: 0 <= k < 4 && Occupies(r.players[k].status) ==> r.players[k].address != from
  }

  /** One packet: a sign of life sets the time, anything else leaves it; and who is present afterwards was present
      before or has just arrived. */
  lemma PacketHeard(r: Room, from: nat, p: Packet, at: Times, token: nat, i: nat)
    requires Invariant(r) && i < 4
    ensures var r' := Receive(r, from, p, at, token).room;
      Occupied(r'.players[i]) ==>
        if Arrives(r, i, from, p, token) then r'.players[i].seen == at.seen
        else && Occupied(r.players[i])
             && r'.players[i].seen == (if Heard(r, i, from, p) then at.seen else r.players[i].seen)
  {
    hide Invariant, Execute;
    if r.closed {
    } else if p.body.Hello? {
      HelloHeard(r, from, p, at, token, i);
    } else if exists j :: 0 <= j < 4 && From(r, j, from, p) {
      var j :| 0 <= j < 4 && From(r, j, from, p);
      FromHeard(r, j, from, p, at, token, i);
    } else {
      StrangersIgnored(r, from, p, at, token);
    }
  }

  lemma HelloHeard(r: Room, from: nat, p: Packet, at: Times, token: nat, i: nat)
    requires Invariant(r) && !r.closed && i < 4 && p.body.Hello?
    ensures var r' := Receive(r, from, p, at, token).room;
      Occupied(r'.players[i]) ==>
        if Arrives(r, i, from, p, token) then r'.players[i].seen == at.seen
        else Occupied(r.players[i]) && r'.players[i].seen == r.players[i].seen && !Heard(r, i, from, p)
  {
    hide Invariant, Publish;
    if Arrives(r, i, from, p, token) {
      HelloSeated(r, from, p, at, token, i);
    } else {
      NotArriving(r, from, p, at, token, i);
    }
  }

  lemma NotArriving(r: Room, from: nat, p: Packet, at: Times, token: nat, i: nat)
    requires Invariant(r) && !r.closed && i < 4 && p.body.Hello? && !Arrives(r, i, from, p, token)
    ensures var r' := Receive(r, from, p, at, token).room;
      Occupied(r'.players[i]) ==> Occupied(r.players[i]) && r'.players[i].seen == r.players[i].seen
  {
    var j := FirstFree(r.players);
    assert j < 4 ==> Vacant(r, j);
    assert Present(r) == Count(r.players);
    assert Resident(r.players, from) == 4 ==>
      forall k :: 0 <= k < 4 && Occupies(r.players[k].status) ==> r.players[k].address != from;
  }

  lemma FromHeard(r: Room, j: nat, from: nat, p: Packet, at: Times, token: nat, i: nat)
    requires Invariant(r) && !r.closed && i < 4 && j < 4 && From(r, j, from, p) && !p.body.Hello?
    ensures var r' := Receive(r, from, p, at, token).room;
      Occupied(r'.players[i]) ==>
        && Occupied(r.players[i])
        && r'.players[i].seen == (if Heard(r, i, from, p) then at.seen else r.players[i].seen)
  {
    hide Invariant, Execute, Newer, Same;
    FromSender(r, j, from, p);
    assert i != j ==> !From(r, i, from, p) by {
      if From(r, i, from, p) {
        FromSender(r, i, from, p);
      }
    }
    if p.body.Ping? {
      PingAnswered(r, j, from, p, at, token);
    } else if p.body.Pong? {
      PongHeard(r, j, from, p, at, token);
    } else if p.body.Movement? {
      MovementStored(r, j, from, p, at, token);
    } else if p.body.Reliable? {
      if Next32(r, j, p) {
        CommandHeard(r, j, from, p, at, token, i);
      } else {
        OutOfSequenceIgnored(r, j, from, p, at, token);
      }
    } else {
      assert Receive(r, from, p, at, token).room == r;
    }
  }

  lemma CommandHeard(r: Room, j: nat, from: nat, p: Packet, at: Times, token: nat, i: nat)
    requires Invariant(r) && !r.closed && i < 4 && j < 4 && From(r, j, from, p) && Next32(r, j, p)
    ensures var r' := Receive(r, from, p, at, token).room;
      Occupied(r'.players[i]) ==>
        Occupied(r.players[i]) && r'.players[i].seen == (if i == j then at.seen else r.players[i].seen)
  {
    hide Invariant, Execute, Next32, From;
    FromSender(r, j, from, p);
    NextIsSequence(r, j, p);
    assert Executes(r, from, p);
    ReceiveExecutes(r, from, p, at, token);
    ExecuteHeard(r, j, p.number, p.body.command, at, i);
  }

  lemma ExecuteHeard(r: Room, j: nat, number: nat, c: Command, at: Times, i: nat)
    requires Invariant(r) && !r.closed && i < 4 && j < 4 && Occupied(r.players[j])
    ensures var r' := Execute(r, j, number, c, at).room;
      Occupied(r'.players[i]) ==>
        Occupied(r.players[i]) && r'.players[i].seen == (if i == j then at.seen else r.players[i].seen)
  {
    hide Invariant, Commanded, Drop, Advance, Quiet;
    var valid := CommandValid(r, j, c);
    var r1 := Commanded(r, j, number, c, at);
    CommandedInvariant(r, j, number, c, at);
    CommandedShape(r, j, number, c, at);
    var r2 := Settled(r1, j, valid, c);
    SettledStep(r1, j, valid, c);
    QuietInvariant(r1, r2);
    DropEffect(r1, j);
    LobbyIsFresh(r1, i);
    assert Occupied(r2.players[i]) ==> Occupied(r1.players[i]) && r2.players[i].seen == r1.players[i].seen by {
      if valid && c == Leave { NobodyThere(r2, i); }
    }
    AdvanceHeard(r2, at.advanced, i);
  }

  /** `advance` changes nobody's time. */
  lemma AdvanceHeard(r: Room, now: nat, i: nat)
    requires Invariant(r) && i < 4
    ensures var r' := Advance(r, now);
      Occupied(r'.players[i]) ==> Occupied(r.players[i]) && r'.players[i].seen == r.players[i].seen
  {
    hide Invariant, Advance;
    AdvanceTouches(r, now, i);
    SilentAreDropped(r, now, i);
    AdvanceEdge(r, now);
    NobodyThere(Advance(r, now), i);
  }

  // Runs.

  /** The time of the last sign of life in a run of the player now in slot `i`, or of its arrival. */
  ghost function LastHeard(r: Room, es: seq<RoomEvent>, i: nat): nat
    requires i < 4
  {
    if es == [] then r.players[i].seen
    else
      var mid, e := Run(r, es[..|es| - 1]), es[|es| - 1];
      if e.Received? && (Arrives(mid, i, e.from, e.packet, e.token) || Heard(mid, i, e.from, e.packet)) then e.at.seen
      else LastHeard(r, es[..|es| - 1], i)
  }

  lemma EventHeard(r: Room, e: RoomEvent, i: nat)
    requires Invariant(r) && i < 4
    ensures var r' := Apply(r, e).room;
      Occupied(r'.players[i]) ==>
        if e.Received? && Arrives(r, i, e.from, e.packet, e.token) then r'.players[i].seen == e.at.seen
        else && Occupied(r.players[i])
             && r'.players[i].seen ==
                (if e.Received? && Heard(r, i, e.from, e.packet) then e.at.seen else r.players[i].seen)
  {
    hide Invariant, Receive, Advance, Arrives, Heard;
    match e {
      case Received(from, p, at, token) => PacketHeard(r, from, p, at, token, i);
      case Ticked(now, published) => AdvanceHeard(r, now, i);
      case PingsSent(now) =>
      case Closed =>
    }
  }

  /** In every run, what the room has recorded of a present player is the time of its last sign of life. */
  lemma {:induction false} SeenIsLastHeard(r: Room, es: seq<RoomEvent>, i: nat)
    requires Invariant(r) && AllowedRun(r, es) && i < 4
    ensures Occupied(Run(r, es).players[i]) ==> Run(r, es).players[i].seen == LastHeard(r, es, i)
  {
    hide Invariant, Evolves, Apply, AllowedRun, Arrives, Heard;
    if es != [] {
      var front, e := es[..|es| - 1], es[|es| - 1];
      ShorterRun(r, es);
      RunSafety(r, front);
      SeenIsLastHeard(r, front, i);
      EventHeard(Run(r, front), e, i);
    }
  }

  // Who is dropped.

  /** The event makes the room look for silent players, at this time. */
  predicate LooksAt(r: Room, e: RoomEvent, now: nat) {
    && !r.closed
    && match e
       case Ticked(t, _) => now == t
       case Received(from, p, at, _) =>
         now == at.advanced && exists j :: 0 <= j < 4 && From(r, j, from, p) && Next32(r, j, p)
       case _ => false
  }

  /** The player in slot `i` asks to leave. */
  predicate AsksToLeave(r: Room, e: RoomEvent, i: nat)
    requires i < 4
  {
    e.Received? && From(r, i, e.from, e.packet) && Next32(r, i, e.packet) && e.packet.body.command == Leave
  }

  lemma ExecutePresence(r: Room, j: nat, number: nat, c: Command, at: Times, i: nat)
    requires Invariant(r) && !r.closed && i < 4 && j < 4 && Occupied(r.players[j])
    ensures Occupied(Execute(r, j, number, c, at).room.players[i]) <==>
      && Occupied(r.players[i]) && !(i == j && c == Leave)
      && Elapsed(at.advanced, if i == j then at.seen else r.players[i].seen) < 5_000_000
  {
    hide Invariant, Commanded, Drop, Advance, Quiet;
    var valid := CommandValid(r, j, c);
    var r1 := Commanded(r, j, number, c, at);
    CommandedInvariant(r, j, number, c, at);
    CommandedShape(r, j, number, c, at);
    ChangesOnlySeen(r, j, number, c, at, i);
    var r2 := Settled(r1, j, valid, c);
    SettledStep(r1, j, valid, c);
    QuietInvariant(r1, r2);
    DropEffect(r1, j);
    LobbyIsFresh(r1, i);
    NobodyThere(r2, i);
    SilentAreDropped(r2, at.advanced, i);
  }

  lemma ChangesOnlySeen(r: Room, j: nat, number: nat, c: Command, at: Times, i: nat)
    requires i < 4 && j < 4 && Occupied(r.players[j])
    ensures var q := Commanded(r, j, number, c, at).players[i];
      && (Occupied(q) <==> Occupied(r.players[i])) && q.seen == (if i == j then at.seen else r.players[i].seen)
  {
  }

  lemma CommandPresence(r: Room, j: nat, from: nat, p: Packet, at: Times, token: nat, i: nat)
    requires Invariant(r) && !r.closed && i < 4 && j < 4 && From(r, j, from, p) && Next32(r, j, p)
    ensures Occupied(Receive(r, from, p, at, token).room.players[i]) <==>
      && Occupied(r.players[i]) && !(i == j && p.body.command == Leave)
      && Elapsed(at.advanced, if i == j then at.seen else r.players[i].seen) < 5_000_000
  {
    hide Invariant, Execute, From, Next32;
    FromSender(r, j, from, p);
    NextIsSequence(r, j, p);
    assert Executes(r, from, p);
    ReceiveExecutes(r, from, p, at, token);
    ExecutePresence(r, j, p.number, p.body.command, at, i);
  }

  lemma OneSender(r: Room, i: nat, j: nat, from: nat, p: Packet)
    requires Invariant(r) && i < 4 && j < 4 && From(r, i, from, p) && From(r, j, from, p)
    ensures i == j
  {
    FromSender(r, i, from, p);
    FromSender(r, j, from, p);
  }

  /** When the room looks, a player remains exactly if it was there, does not leave, and its last sign of life, counting
      the packet just handled, is less than five seconds old. */
  lemma LookDropsExactly(r: Room, es: seq<RoomEvent>, e: RoomEvent, now: nat, i: nat)
    requires Invariant(r) && AllowedRun(r, es) && i < 4 && LooksAt(Run(r, es), e, now)
    ensures Occupied(Apply(Run(r, es), e).room.players[i]) <==>
      && Occupied(Run(r, es).players[i]) && !AsksToLeave(Run(r, es), e, i)
      && Elapsed(now, LastHeard(r, es + [e], i)) < 5_000_000
  {
    hide Invariant, Evolves, AllowedRun, Receive, Run, Advance, Next32, From;
    var mid := Run(r, es);
    RunSafety(r, es);
    SeenIsLastHeard(r, es, i);
    assert (es + [e])[..|es|] == es;
    match e {
      case Ticked(t, published) => SilentAreDropped(mid, t, i);
      case Received(from, p, at, token) =>
        var j :| 0 <= j < 4 && From(mid, j, from, p) && Next32(mid, j, p);
        CommandPresence(mid, j, from, p, at, token, i);
        CommandIsHeard(mid, i, j, from, p, token);
    }
  }

  lemma CommandIsHeard(r: Room, i: nat, j: nat, from: nat, p: Packet, token: nat)
    requires Invariant(r) && !r.closed && i < 4 && j < 4 && From(r, j, from, p) && Next32(r, j, p)
    ensures Heard(r, i, from, p) <==> i == j
    ensures From(r, i, from, p) <==> i == j
    ensures !Arrives(r, i, from, p, token)
  {
    if From(r, i, from, p) {
      OneSender(r, i, j, from, p);
    }
  }

  // With a clock that does not run backwards.

  function Begins(e: RoomEvent): nat {
    match e
    case Received(_, _, at, _) => at.updated
    case Ticked(now, _) => now
    case PingsSent(now) => now
    case Closed => 0
  }

  function Ends(e: RoomEvent): nat {
    match e
    case Received(_, _, at, _) => at.published
    case Ticked(_, published) => published
    case PingsSent(now) => now
    case Closed => 0
  }

  predicate Ordered(e: RoomEvent) {
    match e
    case Received(_, _, at, _) => at.updated <= at.seen <= at.advanced <= at.published
    case Ticked(now, published) => now <= published
    case _ => true
  }

  /** The clock readings of a run, in the order in which they were taken, do not decrease. */
  predicate ClockRuns(es: seq<RoomEvent>) {
    && (forall k :: 0 <= k < |es| ==> Ordered(es[k]))
    && forall j, k :: 0 <= j < k < |es| && !es[k].Closed? ==> Ends(es[j]) <= Begins(es[k])
  }

  lemma {:induction false} HeardBefore(r: Room, es: seq<RoomEvent>, i: nat, now: nat)
    requires i < 4 && r.players[i].seen <= now && forall k :: 0 <= k < |es| ==> Ordered(es[k]) && Ends(es[k]) <= now
    ensures LastHeard(r, es, i) <= now
  {
    hide Run, Arrives, Heard;
    if es != [] {
      HeardBefore(r, es[..|es| - 1], i, now);
    }
  }

  /** In every run of a new room with such a clock, and at every moment at which it looks for silent players: a present
      player who has not asked to leave remains if and only if it has been heard from less than five seconds before. */
  lemma HeardPlayersStay(session: nat, owner: nat, key: seq<nat>, players: nat, track: nat, league: nat,
                         es: seq<RoomEvent>, e: RoomEvent, now: nat, i: nat)
    requires 2 <= players <= 4 && track < 5 && league < 3 && i < 4 && ClockRuns(es + [e])
    requires var r := Created(session, owner, key, players, track, league);
      AllowedRun(r, es) && LooksAt(Run(r, es), e, now) && Occupied(Run(r, es).players[i])
      && !AsksToLeave(Run(r, es), e, i)
    ensures var r := Created(session, owner, key, players, track, league);
      && LastHeard(r, es + [e], i) <= now
      && (Occupied(Apply(Run(r, es), e).room.players[i]) <==> now - LastHeard(r, es + [e], i) < 5_000_000)
  {
    hide Invariant, AllowedRun, Run, Apply, AsksToLeave, LastHeard;
    var r := Created(session, owner, key, players, track, league);
    CreatedInvariant(session, owner, key, players, track, league);
    LookDropsExactly(r, es, e, now, i);
    HeardBeforeLook(r, es, e, now, i);
  }

  lemma HeardBeforeLook(r: Room, es: seq<RoomEvent>, e: RoomEvent, now: nat, i: nat)
    requires i < 4 && r.players[i].seen == 0 && ClockRuns(es + [e]) && LooksAt(Run(r, es), e, now)
    ensures LastHeard(r, es + [e], i) <= now
  {
    hide Run, Arrives, Heard, From, Next32;
    var all := es + [e];
    assert all[..|es|] == es && all[|es|] == e;
    assert Ordered(e) && Begins(e) <= now;
    forall k | 0 <= k < |es| ensures Ordered(es[k]) && Ends(es[k]) <= now {
      assert all[k] == es[k];
    }
    HeardBefore(r, es, i, now);
  }
}
