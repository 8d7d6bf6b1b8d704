/** What the room sends in each transition. */
module RoomMail {
  import opened Words
  import opened Messages
  import opened Rooms
  import opened RoomInvariants
  import opened RoomSteps
  import opened Network

  ghost predicate WelcomeFrom(r: Room, to: nat, p: Packet)
    requires p.body.Welcome?
  {
    exists i :: 0 <= i < 4 && Occupied(r.players[i])
                && ToClient(to, p) == Addressed(r, i, 0, Welcome(i, r.players[i].nonce))
  }

  ghost predicate Says(r: Room, m: Mail) {
    && m.ToClient?
    && (m.packet.body.Snapshot? ==> SnapshotFrom(r, m.to, m.packet))
    && (m.packet.body.Welcome? ==> WelcomeFrom(r, m.to, m.packet))
  }

  /** Whatever is sent describes the resulting room, and snapshots go out exactly when the number advances. */
  ghost predicate Outgoing(r: Room, o: Outcome) {
    && r.snapshotSeq <= o.room.snapshotSeq <= r.snapshotSeq + 1
    && forall m :: m in o.sent ==>
         Says(o.room, m) && (m.packet.body.Snapshot? ==> o.room.snapshotSeq == r.snapshotSeq + 1)
  }

  lemma DropNumbers(r: Room, i: nat)
    requires i < 4
    ensures Drop(r, i).snapshotSeq == r.snapshotSeq
  {
  }

  lemma DropSilentNumbers(r: Room, from: nat, now: nat)
    requires from <= 4
    ensures DropSilent(r, from, now).snapshotSeq == r.snapshotSeq
    decreases 4 - from
  {
    if from < 4 {
      if TimedOut(r.players[from], now) {
        DropNumbers(r, from);
      }
      DropSilentNumbers(if TimedOut(r.players[from], now) then Drop(r, from) else r, from + 1, now);
    }
  }

  lemma AdvanceNumbers(r: Room, now: nat)
    ensures Advance(r, now).snapshotSeq == r.snapshotSeq
  {
    DropSilentNumbers(r, 0, now);
    AdvancePhaseNumbers(DropSilent(r, 0, now), now);
  }

  lemma AdvancePhaseNumbers(r: Room, now: nat)
    ensures AdvancePhase(r, now).snapshotSeq == r.snapshotSeq
  {
  }

  lemma PublishOutgoing(r: Room, now: nat)
    ensures Outgoing(r, Publish(r, now))
  {
  }

  lemma ExecuteOutgoing(r: Room, i: nat, number: nat, c: Command, at: Times)
    requires i < 4
    ensures Outgoing(Commanded(r, i, number, c, at), Execute(r, i, number, c, at))
  {
    var valid := CommandValid(r, i, c);
    var r1 := Commanded(r, i, number, c, at);
    var r2 := Settled(r1, i, valid, c);
    DropNumbers(r1, i);
    AdvanceNumbers(r2, at.advanced);
    PublishOutgoing(Advance(r2, at.advanced), at.published);
  }

  lemma SeatOutgoing(r: Room, i: nat, from: nat, token: nat, nonce: nat, at: Times)
    requires i < 4
    ensures var r1 := Seated(r, i, from, token, nonce, at.seen);
      Outgoing(r1, Outcome(Publish(r1, at.published).room,
                           {Addressed(r1, i, 0, Welcome(i, nonce))} + Publish(r1, at.published).sent))
  {
  }

  lemma FromOutgoing(r: Room, i: nat, p: Packet, at: Times)
    requires i < 4 && !InSequence(r, i, p)
    ensures Outgoing(r, ReceiveFrom(r, i, p, at))
  {
  }

  lemma HelloOutgoing(r: Room, from: nat, nonce: nat, key: seq<nat>, at: Times, token: nat)
    requires token == 0 || Seat(r, from, nonce, key) == 4
    ensures Outgoing(r, ReceiveHello(r, from, nonce, key, at, token))
  {
  }

  lemma ReceiveQuietOutgoing(r: Room, from: nat, p: Packet, at: Times, token: nat)
    requires !Executes(r, from, p) && !Seats(r, from, p, token)
    ensures Outgoing(r, Receive(r, from, p, at, token))
  {
    if r.closed {
    } else if p.body.Hello? {
      HelloOutgoing(r, from, p.body.nonce, p.body.key, at, token);
    } else if Sender(r, from, p) < 4 {
      FromOutgoing(r, Sender(r, from, p), p, at);
    }
  }

  lemma TickOutgoing(r: Room, now: nat, published: nat)
    ensures Outgoing(r, Tick(r, now, published))
  {
    AdvanceNumbers(r, now);
    PublishOutgoing(Advance(r, now), published);
  }

  lemma PingAllOutgoing(r: Room, now: nat)
    ensures Outgoing(r, PingAll(r, now))
  {
  }

  lemma CloseOutgoing(r: Room)
    ensures Outgoing(r, Close(r))
  {
  }

  // When snapshots are made.

  /** What is sent goes to clients, and the snapshots among it carry the next number and this time. */
  predicate Dated(r: Room, o: Outcome, time: nat) {
    forall m :: m in o.sent ==>
      && m.ToClient?
      && (m.packet.body.Snapshot? ==>
            m.packet.number == o.room.snapshotSeq == r.snapshotSeq + 1 && m.packet.body.view.time == time)
  }

  lemma PublishDated(r: Room, now: nat)
    ensures Dated(r, Publish(r, now), now)
  {
  }

  lemma ExecuteDated(r: Room, i: nat, number: nat, c: Command, at: Times)
    requires i < 4
    ensures Dated(r, Execute(r, i, number, c, at), at.published)
  {
    hide Advance, Drop, Publish;
    var r1 := Commanded(r, i, number, c, at);
    var r2 := Settled(r1, i, CommandValid(r, i, c), c);
    DropNumbers(r1, i);
    AdvanceNumbers(r2, at.advanced);
    PublishDated(Advance(r2, at.advanced), at.published);
  }

  lemma HelloDated(r: Room, from: nat, nonce: nat, key: seq<nat>, at: Times, token: nat)
    ensures Dated(r, ReceiveHello(r, from, nonce, key, at, token), at.published)
  {
    hide Publish;
    var j := FirstFree(r.players);
    if j < 4 {
      PublishDated(Seated(r, j, from, token, nonce, at.seen), at.published);
    }
  }

  lemma ReceiveDated(r: Room, from: nat, p: Packet, at: Times, token: nat)
    ensures Dated(r, Receive(r, from, p, at, token), at.published)
  {
    hide Execute, ReceiveHello;
    if p.body.Hello? {
      HelloDated(r, from, p.body.nonce, p.body.key, at, token);
    } else if Executes(r, from, p) {
      ReceiveExecutes(r, from, p, at, token);
      ExecuteDated(r, Sender(r, from, p), p.number, p.body.command, at);
    }
  }

  lemma TickDated(r: Room, now: nat, published: nat)
    ensures Dated(r, Tick(r, now, published), published)
  {
    hide Advance, Publish;
    AdvanceNumbers(r, now);
    PublishDated(Advance(r, now), published);
  }

  lemma OthersDated(r: Room, now: nat)
    ensures Dated(r, PingAll(r, now), 0) && Dated(r, Close(r), 0)
    ensures PingAll(r, now).room.snapshotSeq == Close(r).room.snapshotSeq == r.snapshotSeq
  {
  }
}
