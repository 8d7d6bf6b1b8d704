/**
  The system as the programs run it: a room and clients that keep 32-bit counters, exchanging datagrams with 32-bit
  counters. Each step is what the methods of `Server` and `Client` are proved to do, in state and in datagrams. Every
  run of `Network` has this system as its image, so that what `SystemTheorems` says of a run is said of the programs'
  state.
  */
module NarrowSystem {
  import opened Words
  import opened Messages
  import opened Rooms
  import opened Network
  import opened SystemTheorems
  import K = Congruence
  import O = ClientObjects
  import C = Clients

  datatype Narrow = Narrow(room: Room, net: set<Mail>, clients: map<nat, C.State>)

  function Image(s: System): Narrow {
    Narrow(K.WrapRoom(s.room), K.WrapMails(s.net), map n | n in s.clients :: O.Core(s.clients[n]))
  }

  function WrapEvent(e: Event): Event {
    match e
    case RoomReceives(from, p, at, token) => RoomReceives(from, K.WrapPacket(p), at, token)
    case ClientReceives(n, p) => ClientReceives(n, K.WrapPacket(p))
    case _ => e
  }

  /** An event can happen: what is delivered has been sent, and who acts is there. */
  predicate Ready(m: Narrow, e: Event) {
    match e
    case Attach(nonce, _, _) => nonce !in m.clients
    case RoomReceives(from, p, _, _) => ToServer(from, p) in m.net
    case RoomTicks(_, _) => !m.room.closed
    case RoomPings(_) => true
    case RoomCloses => true
    case ClientReceives(n, p) => n in m.clients && ToClient(m.clients[n].address, p) in m.net
    case ClientTicks(n, _, _, _, _) => n in m.clients
    case ClientFrames(n, _) => n in m.clients
    case ClientRequests(n, _) => n in m.clients
    case ClientFails(n) => n in m.clients
    case ClientDetaches(n) => n in m.clients
  }

  function NarrowRoom(m: Narrow, o: Outcome): Narrow {
    m.(room := K.WrapRoom(o.room), net := m.net + K.WrapMails(o.sent))
  }

  function NarrowClient(m: Narrow, n: nat, reply: C.Reply): Narrow {
    m.(clients := m.clients[n := O.Core(reply.client)], net := m.net + K.WrapMails(reply.sent))
  }

  function NarrowStep(m: Narrow, e: Event): Narrow
    requires Ready(m, e)
  {
    match e
    case Attach(nonce, address, key) => m.(clients := m.clients[nonce := C.Attached(address, nonce, key)])
    case RoomReceives(from, p, at, token) => NarrowRoom(m, Receive(m.room, from, p, at, token))
    case RoomTicks(now, published) => NarrowRoom(m, Tick(m.room, now, published))
    case RoomPings(now) => NarrowRoom(m, PingAll(m.room, now))
    case RoomCloses => NarrowRoom(m, Close(m.room))
    case ClientReceives(n, p) => NarrowClient(m, n, C.Receive(m.clients[n], p))
    case ClientTicks(n, hello, retry, ping, stamp) => NarrowClient(m, n, C.Tick(m.clients[n], hello, retry, ping,
      stamp))
    case ClientFrames(n, f) => NarrowClient(m, n, C.StepFrame(m.clients[n], f))
    case ClientRequests(n, c) => NarrowClient(m, n, C.Reply(C.Request(m.clients[n], c), {}))
    case ClientFails(n) => NarrowClient(m, n, C.Reply(C.Fail(m.clients[n]), {}))
    case ClientDetaches(n) => NarrowClient(m, n, C.Detach(m.clients[n]))
  }

  // The room.

  lemma RoomImage(s: System, o: Outcome, o32: Outcome)
    requires K.CongruentOutcome(o32, o)
    ensures NarrowRoom(Image(s), o32) == Image(AfterRoom(s, o))
  {
    hide K.WrapRoom, K.WrapMails, K.Congruent, O.Core;
    K.CongruentWraps(o32.room, o.room);
    K.WrapMailsUnion(s.net, o.sent);
  }

  lemma SamePacket(p: Packet)
    ensures K.CongruentPacket(K.WrapPacket(p), p)
  {
    WrapStep(p.race);
    WrapStep(p.number);
    WrapStep(p.ack);
  }

  lemma TickImage(r: Room, now: nat, published: nat)
    ensures K.CongruentOutcome(Tick(K.WrapRoom(r), now, published), Tick(r, now, published))
  {
    hide K.WrapRoom, K.WrapMails, Advance, Publish;
    K.WrapCongruent(r);
    K.AdvanceCongruent(K.WrapRoom(r), r, now);
    K.PublishCongruent(Advance(K.WrapRoom(r), now), Advance(r, now), published);
  }

  /** Datagrams to all present players, slot by slot. */
  function ToAll(r: Room, body: Body): set<Mail> {
    set i | 0 <= i < 4 && Occupied(r.players[i]) :: Addressed(r, i, 0, body)
  }

  lemma ToAllImage(a: Room, b: Room, body: Body)
    requires K.Congruent(a, b)
    ensures K.WrapMails(ToAll(a, body)) == K.WrapMails(ToAll(b, body))
  {
    forall i | 0 <= i < 4
      ensures Occupied(a.players[i]) == Occupied(b.players[i])
      ensures K.WrapMail(Addressed(a, i, 0, body)) == K.WrapMail(Addressed(b, i, 0, body))
    {
      assert K.Alike(a.players[i], b.players[i]);
    }
    SlotsImage(a, b, body);
    SlotsImage(b, a, body);
  }

  lemma SlotsImage(a: Room, b: Room, body: Body)
    requires forall i :: 0 <= i < 4 ==> Occupied(a.players[i]) == Occupied(b.players[i])
    requires forall i :: 0 <= i < 4 ==>
      K.WrapMail(Addressed(a, i, 0, body)) == K.WrapMail(Addressed(b, i, 0, body))
    ensures K.WrapMails(ToAll(a, body)) <= K.WrapMails(ToAll(b, body))
  {
    forall x | x in K.WrapMails(ToAll(a, body)) ensures x in K.WrapMails(ToAll(b, body)) {
      var m :| m in ToAll(a, body) && x == K.WrapMail(m);
      var i :| 0 <= i < 4 && Occupied(a.players[i]) && m == Addressed(a, i, 0, body);
      assert Addressed(b, i, 0, body) in ToAll(b, body);
    }
  }

  lemma PingImage(r: Room, now: nat)
    ensures K.CongruentOutcome(PingAll(K.WrapRoom(r), now), PingAll(r, now))
  {
    hide K.WrapMails;
    K.WrapCongruent(r);
    var a, b := PingAll(K.WrapRoom(r), now).room, PingAll(r, now).room;
    assert K.Congruent(a, b) by {
      assert forall i :: 0 <= i < 4 ==> K.Alike(K.WrapRoom(r).players[i], r.players[i]);
    }
    ToAllImage(a, b, Ping(now));
  }

  lemma CloseImage(r: Room)
    ensures K.CongruentOutcome(Close(K.WrapRoom(r)), Close(r))
  {
    hide K.WrapMails, K.WrapRoom;
    K.WrapCongruent(r);
    ToAllImage(K.WrapRoom(r), r, RoomClosed);
  }

  // The clients.

  lemma ClientImage(s: System, n: nat, reply: C.Reply, reply32: C.Reply)
    requires n in s.clients && O.Alike(reply32.client, reply.client)
    requires K.WrapMails(reply32.sent) == K.WrapMails(reply.sent)
    ensures NarrowClient(Image(s), n, reply32) == Image(AfterClient(s, n, reply))
  {
    hide K.WrapRoom, K.WrapMails, O.Core, O.Alike;
    O.AlikeCore(reply32.client, reply.client);
    K.WrapMailsUnion(s.net, reply.sent);
  }

  lemma StampedImage(c: C.State, d: C.State, m: nat, n: nat, body: Body)
    requires O.Alike(c, d) && Same(m, n)
    ensures K.WrapMails({C.Stamped(c, m, body)}) == K.WrapMails({C.Stamped(d, n, body)})
  {
    K.WrapMailsSingle(C.Stamped(c, m, body));
    K.WrapMailsSingle(C.Stamped(d, n, body));
  }

  lemma ReceiveSends(c: C.State, d: C.State, p: Packet, q: Packet)
    requires O.Alike(c, d) && K.CongruentPacket(p, q)
    ensures K.WrapMails(C.Receive(c, p).sent) == K.WrapMails(C.Receive(d, q).sent)
  {
    hide C.TakeSnapshot, PlausibleView, O.Alike, K.WrapMails, Same;
    O.AlikeFields(c, d);
    if p.body.Ping? {
      StampedImage(c, d, 0, 0, Pong(p.body.stamp));
    }
  }

  lemma QueueAlikeFront(c: C.State, d: C.State)
    requires O.Alike(c, d)
    ensures |c.pending| == |d.pending| && c.requests == d.requests && c.key == d.key
    ensures c.pending != [] ==>
      c.pending[0].command == d.pending[0].command && Same(c.pending[0].number, d.pending[0].number)
  {
  }

  lemma QueuedSends(c: C.State, d: C.State, retry: bool, ping: bool, stamp: nat)
    requires O.Alike(c, d)
    ensures K.WrapMails(QueueMails(c, retry, ping, stamp)) == K.WrapMails(QueueMails(d, retry, ping, stamp))
  {
    hide O.Alike, K.WrapMails;
    QueueAlikeFront(c, d);
    StampedImage(c, d, 0, 0, Ping(stamp));
    if c.pending != [] {
      StampedImage(c, d, c.pending[0].number, d.pending[0].number, Reliable(c.pending[0].command));
    }
    K.WrapMailsUnion(FrontMail(c, retry), PingMail(c, ping, stamp));
    K.WrapMailsUnion(FrontMail(d, retry), PingMail(d, ping, stamp));
  }

  function FrontMail(c: C.State, retry: bool): set<Mail> {
    if retry && c.pending != [] then {C.Stamped(c, c.pending[0].number, Reliable(c.pending[0].command))} else {}
  }

  function PingMail(c: C.State, ping: bool, stamp: nat): set<Mail> {
    if ping then {C.Stamped(c, 0, Ping(stamp))} else {}
  }

  function QueueMails(c: C.State, retry: bool, ping: bool, stamp: nat): set<Mail> {
    FrontMail(c, retry) + PingMail(c, ping, stamp)
  }

  lemma TickSends(c: C.State, d: C.State, hello: bool, retry: bool, ping: bool, stamp: nat)
    requires O.Alike(c, d)
    ensures K.WrapMails(C.Tick(c, hello, retry, ping, stamp).sent)
      == K.WrapMails(C.Tick(d, hello, retry, ping, stamp).sent)
  {
    hide O.Alike, K.WrapMails, C.QueueAll;
    O.AlikeFields(c, d);
    QueueAlikeFront(c, d);
    StampedImage(c, d, 0, 0, Hello(c.nonce, c.key));
    var c1, d1 := C.QueueAll(c.(requests := []), c.requests), C.QueueAll(d.(requests := []), d.requests);
    RequestsAlike(c, d, []);
    O.QueueAllAlike(c.(requests := []), d.(requests := []), c.requests);
    QueuedSends(c1, d1, retry, ping, stamp);
  }

  lemma RequestsAlike(c: C.State, d: C.State, requests: seq<Command>)
    requires O.Alike(c, d)
    ensures O.Alike(c.(requests := requests), d.(requests := requests))
  {
  }

  lemma FrameSends(c: C.State, d: C.State, f: C.Frame)
    requires O.Alike(c, d)
    ensures K.WrapMails(C.StepFrame(c, f).sent) == K.WrapMails(C.StepFrame(d, f).sent)
  {
    hide O.Alike, K.WrapMails, C.Queue, C.PrepareRace, C.Locate, C.EnterRace, C.Released, C.SendFinish, C.SendLoaded,
      C.SendSelection;
    O.AlikeFields(c, d);
    if c.game == C.Race {
      O.MoveAlike(c, d);
      var c1, d1 := c.(stateSeq := c.stateSeq + 1), d.(stateSeq := d.stateSeq + 1);
      assert Same(c1.stateSeq, d1.stateSeq) by { StatesAlike(c1, d1); }
      StampedImage(c1, d1, c1.stateSeq, d1.stateSeq, Movement(f.x, f.y, f.orientation));
    }
  }

  lemma StatesAlike(c: C.State, d: C.State)
    requires O.Alike(c, d)
    ensures Same(c.stateSeq, d.stateSeq)
  {
  }

  lemma DetachImage(c: C.State, d: C.State)
    requires O.Alike(c, d)
    ensures O.Alike(C.Detach(c).client, C.Detach(d).client)
    ensures K.WrapMails(C.Detach(c).sent) == K.WrapMails(C.Detach(d).sent)
  {
    hide K.WrapMails;
    O.SameNext(c.commandSeq, d.commandSeq);
    StampedImage(c, d, c.commandSeq + 1, d.commandSeq + 1, Reliable(Leave));
  }

  lemma RequestImage(c: C.State, d: C.State, command: Command)
    requires O.Alike(c, d)
    ensures O.Alike(C.Request(c, command), C.Request(d, command)) && O.Alike(C.Fail(c), C.Fail(d))
  {
    hide Same;
  }

  // Every step, and every run.

  lemma ClientStepImage(s: System, e: Event)
    requires Enabled(s, e) && !e.Attach?
    requires !e.RoomReceives? && !e.RoomTicks? && !e.RoomPings? && !e.RoomCloses?
    ensures Ready(Image(s), WrapEvent(e)) && NarrowStep(Image(s), WrapEvent(e)) == Image(Step(s, e))
  {
    hide O.Core, O.Alike, K.WrapRoom, C.Receive, C.Tick, C.StepFrame, C.Request, C.Fail, C.Detach, K.CongruentPacket,
      ClientWindow;
    var n := e.nonce;
    var c, d := O.Core(s.clients[n]), s.clients[n];
    O.CoreAlike(d);
    assert c.address == d.address by { AddressKept(d); }
    match e {
      case ClientReceives(_, p) =>
        var p32 := K.WrapPacket(p);
        SamePacket(p);
        assert K.WrapMail(ToClient(d.address, p)) == ToClient(d.address, p32);
        assert p32 == p.(race := p32.race, number := p32.number, ack := p32.ack)
               && Same(p32.race, p.race) && Same(p32.number, p.number) && Same(p32.ack, p.ack) by { PacketParts(p); }
        O.ReceiveAlike(c, d, p32, p);
        ReceiveSends(c, d, p32, p);
        ClientImage(s, n, C.Receive(d, p), C.Receive(c, p32));
      case ClientTicks(_, hello, retry, ping, stamp) =>
        O.TickAlike(c, d, hello, retry, ping, stamp);
        TickSends(c, d, hello, retry, ping, stamp);
        ClientImage(s, n, C.Tick(d, hello, retry, ping, stamp), C.Tick(c, hello, retry, ping, stamp));
      case ClientFrames(_, f) =>
        O.FrameAlike(c, d, f);
        FrameSends(c, d, f);
        ClientImage(s, n, C.StepFrame(d, f), C.StepFrame(c, f));
      case ClientRequests(_, command) =>
        RequestImage(c, d, command);
        ClientImage(s, n, C.Reply(C.Request(d, command), {}), C.Reply(C.Request(c, command), {}));
      case ClientFails(_) =>
        RequestImage(c, d, Next);
        ClientImage(s, n, C.Reply(C.Fail(d), {}), C.Reply(C.Fail(c), {}));
      case ClientDetaches(_) =>
        DetachImage(c, d);
        ClientImage(s, n, C.Detach(d), C.Detach(c));
    }
  }

  lemma AddressKept(c: C.State)
    ensures O.Core(c).address == c.address
  {
  }

  lemma PacketParts(p: Packet)
    ensures var q := K.WrapPacket(p);
      q == p.(race := q.race, number := q.number, ack := q.ack)
      && Same(q.race, p.race) && Same(q.number, p.number) && Same(q.ack, p.ack)
  {
    SamePacket(p);
  }

  lemma RoomStepImage(s: System, e: Event)
    requires Enabled(s, e) && (e.RoomReceives? || e.RoomTicks? || e.RoomPings? || e.RoomCloses?)
    ensures Ready(Image(s), WrapEvent(e)) && NarrowStep(Image(s), WrapEvent(e)) == Image(Step(s, e))
  {
    hide O.Core, Receive, Tick, PingAll, Close, K.Congruent, RoomWindow;
    assert Image(s).room.closed == s.room.closed;
    match e {
      case RoomReceives(from, p, at, token) =>
        SamePacket(p);
        K.WrapCongruent(s.room);
        assert K.WrapMail(ToServer(from, p)) == ToServer(from, K.WrapPacket(p));
        K.ReceiveCongruent(K.WrapRoom(s.room), s.room, from, K.WrapPacket(p), p, at, token);
        RoomImage(s, Receive(s.room, from, p, at, token), Receive(K.WrapRoom(s.room), from, K.WrapPacket(p), at,
          token));
      case RoomTicks(now, published) =>
        TickImage(s.room, now, published);
        RoomImage(s, Tick(s.room, now, published), Tick(K.WrapRoom(s.room), now, published));
      case RoomPings(now) =>
        PingImage(s.room, now);
        RoomImage(s, PingAll(s.room, now), PingAll(K.WrapRoom(s.room), now));
      case RoomCloses =>
        CloseImage(s.room);
        RoomImage(s, Close(s.room), Close(K.WrapRoom(s.room)));
    }
  }

  lemma AttachImage(s: System, nonce: nat, address: nat, key: seq<nat>)
    requires nonce !in s.clients
    ensures var e := Attach(nonce, address, key);
      Ready(Image(s), e) && NarrowStep(Image(s), e) == Image(Step(s, e))
  {
    hide K.WrapRoom, K.WrapMails, O.Core;
    O.NarrowCore(C.Attached(address, nonce, key));
  }

  lemma StepImage(s: System, e: Event)
    requires Enabled(s, e)
    ensures Ready(Image(s), WrapEvent(e)) && NarrowStep(Image(s), WrapEvent(e)) == Image(Step(s, e))
  {
    hide Image, NarrowStep, Ready, Step, RoomWindow, ClientWindow;
    match e {
      case Attach(nonce, address, key) => AttachImage(s, nonce, address, key);
      case RoomReceives(_, _, _, _) => RoomStepImage(s, e);
      case RoomTicks(_, _) => RoomStepImage(s, e);
      case RoomPings(_) => RoomStepImage(s, e);
      case RoomCloses => RoomStepImage(s, e);
      case _ => ClientStepImage(s, e);
    }
  }

  function NarrowRun(m: Narrow, es: seq<Event>): Narrow {
    if es == [] then m
    else
      var m1, e := NarrowRun(m, es[..|es| - 1]), es[|es| - 1];
      if Ready(m1, e) then NarrowStep(m1, e) else m1
  }

  function WrapEvents(es: seq<Event>): (ws: seq<Event>)
    ensures |ws| == |es| && forall k :: 0 <= k < |es| ==> ws[k] == WrapEvent(es[k])
  {
    seq(|es|, k requires 0 <= k < |es| => WrapEvent(es[k]))
  }

  /** Every event of the run happens. */
  predicate Happens(s: System, es: seq<Event>) {
    forall k :: 0 <= k < |es| ==> Enabled(Run(s, es[..k]), es[k])
  }

  /** The 32-bit system follows every run, across any number of wrap-arounds: room, datagrams and clients are the 32-bit
      images of those of the run. */
  lemma {:induction false} RunImage(s: System, es: seq<Event>)
    requires Happens(s, es)
    ensures NarrowRun(Image(s), WrapEvents(es)) == Image(Run(s, es))
  {
    hide Image, NarrowStep, Ready, Step, Enabled, WrapEvent;
    if es == [] {
    } else {
      var k := |es| - 1;
      var front := es[..k];
      forall j | 0 <= j < |front| ensures Enabled(Run(s, front[..j]), front[j]) {
        assert front[..j] == es[..j];
      }
      RunImage(s, front);
      assert WrapEvents(es)[..k] == WrapEvents(front);
      assert Enabled(Run(s, es[..k]), es[k]);
      StepImage(Run(s, front), es[k]);
    }
  }

  // The other direction.

  /** What is delivered has been sent, and who acts is there. */
  predicate Possible(s: System, e: Event) {
    match e
    case Attach(nonce, _, _) => nonce !in s.clients
    case RoomReceives(from, p, _, _) => ToServer(from, p) in s.net
    case RoomTicks(_, _) => !s.room.closed
    case RoomPings(_) => true
    case RoomCloses => true
    case ClientReceives(n, p) => n in s.clients && ToClient(s.clients[n].address, p) in s.net
    case ClientTicks(n, _, _, _, _) => n in s.clients
    case ClientFrames(n, _) => n in s.clients
    case ClientRequests(n, _) => n in s.clients
    case ClientFails(n) => n in s.clients
    case ClientDetaches(n) => n in s.clients
  }

  /** What is assumed of an event beyond its being possible: counters in their windows, a fresh token, and a request
      that the user interface makes. */
  predicate Assumed(s: System, e: Event) {
    match e
    case RoomReceives(from, p, _, token) => token !in s.owners && RoomWindow(s.room, from, p)
    case ClientReceives(n, p) => n in s.clients && ClientWindow(s.clients[n], p)
    case ClientRequests(_, c) => c.Config? || c.Next?
    case _ => true
  }

  lemma EnabledIs(s: System, e: Event)
    ensures Enabled(s, e) <==> Possible(s, e) && Assumed(s, e)
  {
    hide RoomWindow, ClientWindow;
  }

  /** The event `r` lies behind the event `e` of the 32-bit system, and the assumptions hold of it. */
  predicate Behind(s: System, e: Event, r: Event) {
    WrapEvent(r) == e && Enabled(s, r)
  }

  /** What can happen in the 32-bit system is the image of something possible in the unwrapped one; and if the
      assumptions hold of some such event, there is an event behind it. */
  lemma ReadyIsPossible(s: System, e: Event)
    requires Ready(Image(s), e)
    ensures exists r :: WrapEvent(r) == e && Possible(s, r)
    ensures (exists r :: WrapEvent(r) == e && Possible(s, r) && Assumed(s, r)) <==> exists r :: Behind(s, e, r)
  {
    hide RoomWindow, ClientWindow, O.Core, K.WrapRoom;
    match e {
      case RoomReceives(from, p, at, token) =>
        var m :| m in s.net && K.WrapMail(m) == ToServer(from, p);
        assert WrapEvent(RoomReceives(from, m.packet, at, token)) == e;
      case ClientReceives(n, p) =>
        assert Image(s).clients[n].address == s.clients[n].address by { AddressKept(s.clients[n]); }
        var m :| m in s.net && K.WrapMail(m) == ToClient(s.clients[n].address, p);
        assert WrapEvent(ClientReceives(n, m.packet)) == e;
      case RoomTicks(_, _) => assert WrapEvent(e) == e && s.room.closed == Image(s).room.closed by { ClosedKept(s); }
      case _ => assert WrapEvent(e) == e;
    }
    forall r ensures Behind(s, e, r) <==> WrapEvent(r) == e && Possible(s, r) && Assumed(s, r) {
      EnabledIs(s, r);
    }
  }

  lemma ClosedKept(s: System)
    ensures s.room.closed == Image(s).room.closed
  {
  }

  ghost function Lift(s: System, e: Event): (r: Event)
    requires exists r :: Behind(s, e, r)
    ensures Behind(s, e, r)
  {
    var r :| Behind(s, e, r);
    r
  }

  /** Whatever the 32-bit system can do is the image of a step of the unwrapped one, under the assumptions. */
  lemma StepLifts(s: System, e: Event)
    requires exists r :: Behind(s, e, r)
    ensures Ready(Image(s), e) && NarrowStep(Image(s), e) == Image(Step(s, Lift(s, e)))
  {
    hide Image, NarrowStep, Ready, Step, Lift;
    StepImage(s, Lift(s, e));
  }

  /** From the state of a run, the 32-bit system can make these moves, and of each the assumptions hold for some
      datagram with that image. */
  ghost predicate Plays(s: System, es: seq<Event>)
    decreases |es|
  {
    es != [] ==> (exists r :: Behind(s, es[0], r)) && Plays(Step(s, Lift(s, es[0])), es[1..])
  }

  /** The run behind these moves. */
  ghost function LiftAll(s: System, es: seq<Event>): (r: seq<Event>)
    requires Plays(s, es)
    ensures |r| == |es|
    decreases |es|
  {
    if es == [] then [] else [Lift(s, es[0])] + LiftAll(Step(s, Lift(s, es[0])), es[1..])
  }

  /** Every run of the 32-bit system in which the assumptions hold is the image of a run of the unwrapped system. */
  lemma {:induction false} RunLifts(s: System, es: seq<Event>)
    requires Plays(s, es)
    ensures WrapEvents(LiftAll(s, es)) == es
    ensures NarrowRun(Image(s), es) == Image(Run(s, LiftAll(s, es)))
    decreases |es|
  {
    hide Image, NarrowStep, Ready, Step, Enabled, Lift, WrapEvent;
    if es == [] {
    } else {
      var e := Lift(s, es[0]);
      StepLifts(s, es[0]);
      RunLifts(Step(s, e), es[1..]);
      RunSplit(s, [e], LiftAll(Step(s, e), es[1..]));
      RunOnce(s, e);
      NarrowFirst(Image(s), es);
    }
  }

  lemma {:induction false} NarrowFirst(m: Narrow, es: seq<Event>)
    requires es != [] && Ready(m, es[0])
    ensures NarrowRun(m, es) == NarrowRun(NarrowStep(m, es[0]), es[1..])
  {
    hide NarrowStep, Ready;
    var k := |es| - 1;
    if k == 0 {
      assert es[..0] == [];
    } else {
      NarrowFirst(m, es[..k]);
      assert es[..k][1..] == es[1..][..k - 1];
    }
  }

  // What the methods send.

  /** The counters of a client fit in 32 bits, as class `Client` keeps them. */
  predicate Fits(c: C.State) {
    c.race < SPACE && c.commandSeq < SPACE && c.stateSeq < SPACE && c.snapshotSeq < SPACE
    && (forall k :: 0 <= k < |c.pending| ==> c.pending[k].number < SPACE) && c.history == C.NO_HISTORY
  }

  lemma StampedFits(c: C.State, number: nat, body: Body)
    requires c.race < SPACE && number < SPACE
    ensures K.WrapMails({C.Stamped(c, number, body)}) == {C.Stamped(c, number, body)}
  {
    K.WrapMailsSingle(C.Stamped(c, number, body));
  }

  lemma NoMails()
    ensures K.WrapMails({}) == {}
  {
  }

  /** What `Client.ReceivePacket` sends is what the 32-bit system sends. */
  lemma ReceiveMails(c: C.State, p: Packet)
    requires Fits(c)
    ensures C.Receive(c, p).sent == K.WrapMails(C.Receive(c, p).sent)
  {
    hide C.TakeSnapshot, PlausibleView, K.WrapMails;
    NoMails();
    if p.body.Ping? {
      StampedFits(c, 0, Pong(p.body.stamp));
    }
  }

  /** So is what `Client.DoTick` sends. */
  lemma TickMails(c: C.State, hello: bool, retry: bool, ping: bool, stamp: nat)
    requires Fits(c)
    ensures var reply := C.Tick(c, hello, retry, ping, stamp);
      O.FrontMails(O.Core(reply.client), c, hello, retry, ping, stamp) == K.WrapMails(reply.sent)
  {
    hide K.WrapMails, C.QueueAll, O.Core;
    NoMails();
    StampedFits(c, 0, Hello(c.nonce, c.key));
    var c1 := C.QueueAll(c.(requests := []), c.requests);
    O.NarrowCore(c);
    O.CoreAlike(c1);
    QueueAllFields(c.(requests := []), c.requests);
    CoreFits(c1);
    QueuedSends(O.Core(c1), c1, retry, ping, stamp);
    QueueMailsFit(O.Core(c1), retry, ping, stamp);
  }

  lemma {:induction false} QueueAllFields(c: C.State, commands: seq<Command>)
    ensures var c' := C.QueueAll(c, commands); c'.open == c.open && c'.game == c.game && c'.slot == c.slot
  {
    hide C.Queue;
    if commands != [] {
      var k := |commands| - 1;
      QueueAllFields(c, commands[..k]);
      QueueFields(C.QueueAll(c, commands[..k]), commands[k]);
    }
  }

  lemma QueueFields(c: C.State, command: Command)
    ensures var c' := C.Queue(c, command); c'.open == c.open && c'.game == c.game && c'.slot == c.slot
  {
  }

  lemma CoreFits(c: C.State)
    ensures Fits(O.Core(c))
  {
  }

  lemma QueueMailsFit(c: C.State, retry: bool, ping: bool, stamp: nat)
    requires Fits(c)
    ensures K.WrapMails(QueueMails(c, retry, ping, stamp)) == QueueMails(c, retry, ping, stamp)
  {
    hide K.WrapMails;
    NoMails();
    StampedFits(c, 0, Ping(stamp));
    if c.pending != [] {
      StampedFits(c, c.pending[0].number, Reliable(c.pending[0].command));
    }
    K.WrapMailsUnion(FrontMail(c, retry), PingMail(c, ping, stamp));
  }

  /** So is what `Client.DoFrame` sends. */
  lemma FrameMails(c: C.State, f: C.Frame)
    requires Fits(c)
    ensures var reply := C.StepFrame(c, f);
      O.FrameMails(O.Core(reply.client), c, f) == K.WrapMails(reply.sent)
  {
    hide K.WrapMails, C.Queue, C.PrepareRace, C.Locate, C.EnterRace, C.Released, C.SendFinish, C.SendLoaded,
      C.SendSelection;
    NoMails();
    if c.attached && c.game == C.Race && f.ram54 != 3 {
      var c1 := c.(stateSeq := c.stateSeq + 1);
      var body := Movement(f.x, f.y, f.orientation);
      K.WrapMailsSingle(C.Stamped(c1, c1.stateSeq, body));
      assert K.WrapMail(C.Stamped(c1, c1.stateSeq, body)) == C.Stamped(O.Core(c1), O.Core(c1).stateSeq, body);
    }
  }

  /** So is what `Client.DoDetach` sends. */
  lemma DetachMails(c: C.State)
    requires Fits(c)
    ensures K.WrapMails(C.Detach(c).sent) ==
      if O.Leaves(c) then {C.Stamped(c, O.Core(C.Detach(c).client).commandSeq, Reliable(Leave))} else {}
  {
    hide K.WrapMails;
    NoMails();
    K.WrapMailsSingle(C.Stamped(c, c.commandSeq + 1, Reliable(Leave)));
  }
}
