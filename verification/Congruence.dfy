/**
  The 32-bit room. `Rooms` counts without bound and compares only 32-bit images, so wrapping the counters of a
  room and of a packet before a transition gives the wrapped result of the transition.
  */
module Congruence {
  import opened Words
  import opened Messages
  import opened Rooms
  import opened RoomSteps
  import opened RoomTheorems

  // 32-bit images.

  function WrapPlayer(p: Player): Player {
    p.(commandSeq := Wrap(p.commandSeq), stateSeq := Wrap(p.stateSeq))
  }

  function WrapRoom(r: Room): Room {
    r.(race := Wrap(r.race), snapshotSeq := Wrap(r.snapshotSeq),
       players := seq(4, i requires 0 <= i < 4 => WrapPlayer(r.players[i])))
  }

  function WrapPacket(p: Packet): Packet {
    p.(race := Wrap(p.race), number := Wrap(p.number), ack := Wrap(p.ack))
  }

  function WrapMail(m: Mail): Mail {
    m.(packet := WrapPacket(m.packet))
  }

  function WrapMails(s: set<Mail>): set<Mail> {
    set m | m in s :: WrapMail(m)
  }

  // Rooms with the same image.

  predicate Alike(p: Player, q: Player) {
    && p == q.(commandSeq := p.commandSeq, stateSeq := p.stateSeq)
    && Same(p.commandSeq, q.commandSeq)
    && Same(p.stateSeq, q.stateSeq)
  }

  predicate Congruent(a: Room, b: Room) {
    && a == b.(race := a.race, snapshotSeq := a.snapshotSeq, players := a.players)
    && Same(a.race, b.race)
    && Same(a.snapshotSeq, b.snapshotSeq)
    && forall i :: 0 <= i < 4 ==> Alike(a.players[i], b.players[i])
  }

  predicate CongruentPacket(p: Packet, q: Packet) {
    && p == q.(race := p.race, number := p.number, ack := p.ack)
    && Same(p.race, q.race) && Same(p.number, q.number) && Same(p.ack, q.ack)
  }

  lemma WrapCongruent(r: Room)
    ensures Congruent(WrapRoom(r), r)
  {
  }

  lemma CongruentWraps(a: Room, b: Room)
    requires Congruent(a, b)
    ensures WrapRoom(a) == WrapRoom(b)
  {
  }

  lemma AlikeSlots(a: Room, b: Room)
    requires Congruent(a, b)
    ensures Count(a.players) == Count(b.players) && FirstOccupied(a.players) == FirstOccupied(b.players)
    ensures FirstFree(a.players) == FirstFree(b.players)
    ensures forall s :: AllAtLeast(a.players, s) <==> AllAtLeast(b.players, s)
    ensures AllArmed(a.players, a.start) <==> AllArmed(b.players, b.start)
  {
  }

  // Transitions respect congruence.

  lemma BeginLobbyCongruent(a: Room, b: Room)
    requires Congruent(a, b)
    ensures Congruent(BeginLobby(a), BeginLobby(b))
  {
  }

  lemma LeftCongruent(a: Room, b: Room, i: nat)
    requires Congruent(a, b) && i < 4
    ensures Congruent(Forget(PassHost(Vacate(a, i), i), i), Forget(PassHost(Vacate(b, i), i), i))
    ensures Congruent(Vacate(a, i), Vacate(b, i))
  {
    AlikeSlots(Vacate(a, i), Vacate(b, i));
  }

  lemma DropCongruent(a: Room, b: Room, i: nat)
    requires Congruent(a, b) && i < 4
    ensures Congruent(Drop(a, i), Drop(b, i))
  {
    hide Vacate, PassHost, Forget, Same;
    LeftCongruent(a, b, i);
    var x, y := Forget(PassHost(Vacate(a, i), i), i), Forget(PassHost(Vacate(b, i), i), i);
    AlikeSlots(x, y);
    BeginLobbyCongruent(x, y);
  }

  lemma DropSilentCongruent(a: Room, b: Room, from: nat, now: nat)
    requires Congruent(a, b) && from <= 4
    ensures Congruent(DropSilent(a, from, now), DropSilent(b, from, now))
    decreases 4 - from
  {
    hide Drop, Same;
    if from < 4 {
      assert Alike(a.players[from], b.players[from]);
      DropCongruent(a, b, from);
      DropSilentCongruent(if TimedOut(a.players[from], now) then Drop(a, from) else a,
                          if TimedOut(b.players[from], now) then Drop(b, from) else b, from + 1, now);
    }
  }

  lemma AdvancePhaseCongruent(a: Room, b: Room, now: nat)
    requires Congruent(a, b)
    ensures Congruent(AdvancePhase(a, now), AdvancePhase(b, now))
  {
    hide Same, Congruent, StartLoading, StartCountdown, CountDown, FinishRace;
    StartLoadingCongruent(a, b);
    var a1, b1 := StartLoading(a), StartLoading(b);
    StartCountdownCongruent(a1, b1, now);
    var a2, b2 := StartCountdown(a1, now), StartCountdown(b1, now);
    CountDownCongruent(a2, b2, now);
    FinishRaceCongruent(CountDown(a2, now), CountDown(b2, now));
  }

  lemma StartLoadingCongruent(a: Room, b: Room)
    requires Congruent(a, b)
    ensures Congruent(StartLoading(a), StartLoading(b))
  {
  }

  lemma StartCountdownCongruent(a: Room, b: Room, now: nat)
    requires Congruent(a, b)
    ensures Congruent(StartCountdown(a, now), StartCountdown(b, now))
  {
  }

  lemma CountDownCongruent(a: Room, b: Room, now: nat)
    requires Congruent(a, b)
    ensures Congruent(CountDown(a, now), CountDown(b, now))
  {
  }

  lemma FinishRaceCongruent(a: Room, b: Room)
    requires Congruent(a, b)
    ensures Congruent(FinishRace(a), FinishRace(b))
  {
  }

  lemma AdvanceCongruent(a: Room, b: Room, now: nat)
    requires Congruent(a, b)
    ensures Congruent(Advance(a, now), Advance(b, now))
  {
    hide Same, DropSilent, AdvancePhase;
    DropSilentCongruent(a, b, 0, now);
    AdvancePhaseCongruent(DropSilent(a, 0, now), DropSilent(b, 0, now), now);
  }

  // Messages.

  lemma AddressedWraps(a: Room, b: Room, i: nat, m: nat, n: nat, body: Body)
    requires Congruent(a, b) && i < 4 && Same(m, n)
    ensures WrapMail(Addressed(a, i, m, body)) == WrapMail(Addressed(b, i, n, body))
  {
  }

  lemma SameView(a: Room, b: Room, now: nat)
    requires Congruent(a, b)
    ensures ViewOf(a, now) == ViewOf(b, now)
  {
  }

  lemma PublishCongruent(a: Room, b: Room, now: nat)
    requires Congruent(a, b)
    ensures Congruent(Publish(a, now).room, Publish(b, now).room)
    ensures WrapMails(Publish(a, now).sent) == WrapMails(Publish(b, now).sent)
  {
    hide WrapMail, ViewOf;
    WrapStep(a.snapshotSeq);
    WrapStep(b.snapshotSeq);
    var x, y := Publish(a, now), Publish(b, now);
    SameView(x.room, y.room, now);
    forall i | 0 <= i < 4
      ensures WrapMail(SnapshotTo(x.room, i, now)) == WrapMail(SnapshotTo(y.room, i, now))
      ensures Occupied(x.room.players[i]) == Occupied(y.room.players[i])
    {
      assert Alike(x.room.players[i], y.room.players[i]);
      AddressedWraps(x.room, y.room, i, x.room.snapshotSeq, y.room.snapshotSeq, Snapshot(ViewOf(x.room, now)));
    }
    SnapshotImage(x.room, now, x.sent);
    SnapshotImage(y.room, now, y.sent);
    assert WrapMails(x.sent) == WrapMails(y.sent) by {
      forall w | w in WrapMails(x.sent) ensures w in WrapMails(y.sent) {
        var i :| 0 <= i < 4 && Occupied(x.room.players[i]) && w == WrapMail(SnapshotTo(x.room, i, now));
        assert Occupied(y.room.players[i]) && w == WrapMail(SnapshotTo(y.room, i, now));
      }
      forall w | w in WrapMails(y.sent) ensures w in WrapMails(x.sent) {
        var i :| 0 <= i < 4 && Occupied(y.room.players[i]) && w == WrapMail(SnapshotTo(y.room, i, now));
        assert Occupied(x.room.players[i]) && w == WrapMail(SnapshotTo(x.room, i, now));
      }
    }
  }

  /** The image of the snapshots a room sends, slot by slot. */
  lemma SnapshotImage(r: Room, now: nat, s: set<Mail>)
    requires s == set i | 0 <= i < 4 && Occupied(r.players[i]) :: SnapshotTo(r, i, now)
    ensures forall w :: w in WrapMails(s) <==>
      exists i :: 0 <= i < 4 && Occupied(r.players[i]) && w == WrapMail(SnapshotTo(r, i, now))
  {
  }

  // Commands and packets.

  lemma CommandedCongruent(a: Room, b: Room, i: nat, m: nat, n: nat, c: Command, at: Times)
    requires Congruent(a, b) && i < 4 && Same(m, n)
    ensures CommandValid(a, i, c) <==> CommandValid(b, i, c)
    ensures Congruent(Commanded(a, i, m, c, at), Commanded(b, i, n, c, at))
  {
    hide Count;
    AlikeSlots(a, b);
    assert Alike(a.players[i], b.players[i]);
  }

  lemma SettledCongruent(a: Room, b: Room, i: nat, valid: bool, c: Command)
    requires Congruent(a, b) && i < 4
    ensures Congruent(Settled(a, i, valid, c), Settled(b, i, valid, c))
  {
    hide Same, Drop, BeginLobby;
    DropCongruent(a, b, i);
    BeginLobbyCongruent(a, b);
  }

  lemma WrapMailsUnion(s: set<Mail>, t: set<Mail>)
    ensures WrapMails(s + t) == WrapMails(s) + WrapMails(t)
  {
  }

  lemma WrapMailsSingle(m: Mail)
    ensures WrapMails({m}) == {WrapMail(m)}
  {
  }

  lemma ExecuteCongruent(a: Room, b: Room, i: nat, m: nat, n: nat, c: Command, at: Times)
    requires Congruent(a, b) && i < 4 && Same(m, n)
    ensures Congruent(Execute(a, i, m, c, at).room, Execute(b, i, n, c, at).room)
    ensures WrapMails(Execute(a, i, m, c, at).sent) == WrapMails(Execute(b, i, n, c, at).sent)
  {
    hide Congruent, Commanded, Advance, Settled, Publish, Same, CommandValid, WrapMails, WrapMail, Addressed;
    CommandedCongruent(a, b, i, m, n, c, at);
    var valid := CommandValid(a, i, c);
    var a1, b1 := Commanded(a, i, m, c, at), Commanded(b, i, n, c, at);
    SettledCongruent(a1, b1, i, valid, c);
    var a2, b2 := Settled(a1, i, valid, c), Settled(b1, i, valid, c);
    AdvanceCongruent(a2, b2, at.advanced);
    PublishCongruent(Advance(a2, at.advanced), Advance(b2, at.advanced), at.published);
    var x, y := Addressed(a1, i, 0, Refusal(c)), Addressed(b1, i, 0, Refusal(c));
    AddressedWraps(a1, b1, i, 0, 0, Refusal(c));
    WrapMailsSingle(x);
    WrapMailsSingle(y);
    var p, q := Publish(Advance(a2, at.advanced), at.published), Publish(Advance(b2, at.advanced), at.published);
    WrapMailsUnion(if valid then {} else {x}, p.sent);
    WrapMailsUnion(if valid then {} else {y}, q.sent);
  }

  ghost predicate CongruentOutcome(x: Outcome, y: Outcome) {
    Congruent(x.room, y.room) && WrapMails(x.sent) == WrapMails(y.sent)
  }

  lemma FromCongruent(a: Room, b: Room, i: nat, p: Packet, q: Packet, at: Times)
    requires Congruent(a, b) && i < 4 && CongruentPacket(p, q)
    ensures CongruentOutcome(ReceiveFrom(a, i, p, at), ReceiveFrom(b, i, q, at))
  {
    hide Execute, WrapMails, WrapMail;
    assert Alike(a.players[i], b.players[i]);
    WrapStep(a.players[i].commandSeq);
    WrapStep(b.players[i].commandSeq);
    if p.body.Ping? {
      var a1 := a.(players := a.players[i := a.players[i].(seen := at.seen)]);
      var b1 := b.(players := b.players[i := b.players[i].(seen := at.seen)]);
      var body := TimedPong(p.body.stamp, at.seen);
      AddressedWraps(a1, b1, i, 0, 0, body);
      WrapMailsSingle(Addressed(a1, i, 0, body));
      WrapMailsSingle(Addressed(b1, i, 0, body));
    } else if p.body.Reliable? {
      ExecuteCongruent(a, b, i, p.number, q.number, p.body.command, at);
    }
  }

  lemma HelloCongruent(a: Room, b: Room, from: nat, nonce: nat, key: seq<nat>, at: Times, token: nat)
    requires Congruent(a, b)
    ensures CongruentOutcome(ReceiveHello(a, from, nonce, key, at, token), ReceiveHello(b, from, nonce, key, at, token))
  {
    hide Count, FirstFree, WrapMails, WrapMail, Addressed, Publish, Seated;
    AlikeSlots(a, b);
    assert forall j :: 0 <= j < 4 ==> Alike(a.players[j], b.players[j]);
    var i := Resident(a.players, from);
    assert i == Resident(b.players, from);
    if i < 4 {
      AddressedWraps(a, b, i, 0, 0, Welcome(i, nonce));
      WrapMailsSingle(Addressed(a, i, 0, Welcome(i, nonce)));
      WrapMailsSingle(Addressed(b, i, 0, Welcome(i, nonce)));
    } else {
      var j := FirstFree(a.players);
      if j < 4 {
        SeatCongruent(a, b, j, from, token, nonce, at);
      }
    }
  }

  lemma SeatCongruent(a: Room, b: Room, j: nat, from: nat, token: nat, nonce: nat, at: Times)
    requires Congruent(a, b) && j < 4
    ensures var x, y := Seated(a, j, from, token, nonce, at.seen), Seated(b, j, from, token, nonce, at.seen);
      && Congruent(Publish(x, at.published).room, Publish(y, at.published).room)
      && WrapMails({Addressed(x, j, 0, Welcome(j, nonce))} + Publish(x, at.published).sent)
         == WrapMails({Addressed(y, j, 0, Welcome(j, nonce))} + Publish(y, at.published).sent)
  {
    hide WrapMails, WrapMail, Addressed, Publish;
    var x, y := Seated(a, j, from, token, nonce, at.seen), Seated(b, j, from, token, nonce, at.seen);
    assert Congruent(x, y);
    PublishCongruent(x, y, at.published);
    AddressedWraps(x, y, j, 0, 0, Welcome(j, nonce));
    WrapMailsSingle(Addressed(x, j, 0, Welcome(j, nonce)));
    WrapMailsSingle(Addressed(y, j, 0, Welcome(j, nonce)));
    WrapMailsUnion({Addressed(x, j, 0, Welcome(j, nonce))}, Publish(x, at.published).sent);
    WrapMailsUnion({Addressed(y, j, 0, Welcome(j, nonce))}, Publish(y, at.published).sent);
  }

  lemma ReceiveCongruent(a: Room, b: Room, from: nat, p: Packet, q: Packet, at: Times, token: nat)
    requires Congruent(a, b) && CongruentPacket(p, q)
    ensures CongruentOutcome(Receive(a, from, p, at, token), Receive(b, from, q, at, token))
  {
    hide Same, WrapMails, ReceiveHello, ReceiveFrom;
    assert forall j :: 0 <= j < 4 ==> Alike(a.players[j], b.players[j]);
    assert forall j :: 0 <= j < 4 ==> (IsSender(a, j, from, p) <==> IsSender(b, j, from, q));
    var i := Sender(a, from, p);
    assert i == Sender(b, from, q);
    if p.body.Hello? {
      HelloCongruent(a, b, from, p.body.nonce, p.body.key, at, token);
    } else if i < 4 {
      FromCongruent(a, b, i, p, q, at);
    }
  }

  // Whole runs of the 32-bit room.

  function WrapEvent(e: RoomEvent): RoomEvent {
    if e.Received? then e.(packet := e.packet.(race := Wrap(e.packet.race), number := Wrap(e.packet.number),
                                               ack := Wrap(e.packet.ack)))
    else e
  }

  function WrapEvents(es: seq<RoomEvent>): (ws: seq<RoomEvent>)
    ensures |ws| == |es|
    ensures forall k :: 0 <= k < |es| ==> ws[k] == WrapEvent(es[k])
  {
    seq(|es|, k requires 0 <= k < |es| => WrapEvent(es[k]))
  }

  /** A run whose state is kept in 32-bit counters throughout. */
  function Run32(r: Room, es: seq<RoomEvent>): Room {
    if es == [] then r else WrapRoom(Apply(Run32(r, es[..|es| - 1]), es[|es| - 1]).room)
  }

  lemma ApplyCongruent(a: Room, b: Room, e: RoomEvent)
    requires Congruent(a, b)
    ensures Congruent(Apply(a, WrapEvent(e)).room, Apply(b, e).room)
  {
    hide Receive, Advance, Publish;
    match e {
      case Received(from, p, at, token) =>
        WrapStep(p.race);
        WrapStep(p.number);
        WrapStep(p.ack);
        ReceiveCongruent(a, b, from, WrapEvent(e).packet, p, at, token);
      case Ticked(now, published) =>
        AdvanceCongruent(a, b, now);
        PublishCongruent(Advance(a, now), Advance(b, now), published);
      case PingsSent(now) =>
        assert forall i :: 0 <= i < 4 ==> Alike(a.players[i], b.players[i]);
      case Closed =>
    }
  }

  /** The 32-bit room follows the unwrapped room through every run, across any number of wrap-arounds:
      every theorem about the unwrapped room speaks about the image of the real one. */
  lemma {:induction false} RunsAgree(r: Room, es: seq<RoomEvent>)
    ensures Run32(WrapRoom(r), WrapEvents(es)) == WrapRoom(Run(r, es))
  {
    hide WrapRoom, Apply, WrapEvent;
    if es == [] {
    } else {
      var k := |es| - 1;
      var ws := WrapEvents(es);
      assert ws[..k] == WrapEvents(es[..k]);
      RunsAgree(r, es[..k]);
      var a, b := Run32(WrapRoom(r), ws[..k]), Run(r, es[..k]);
      WrapCongruent(b);
      ApplyCongruent(a, b, es[k]);
      CongruentWraps(Apply(a, ws[k]).room, Apply(b, es[k]).room);
    }
  }
}
