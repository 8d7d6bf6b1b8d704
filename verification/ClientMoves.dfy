/** Each thing a client does keeps its stream and its knowledge sound. */
module ClientMoves {
  import opened Words
  import opened Messages
  import opened Rooms
  import opened RoomInvariants
  import opened Network
  import opened ClientSide
  import C = Clients

  // Acknowledgements.

  /** Because only the front command is ever in flight, an acknowledgement removes it or nothing. */
  lemma AckedOne(c: C.State, ack: nat)
    requires QueueOk(c) && ack <= Base(c) + 1
    requires forall k :: 0 <= k < |c.pending| ==> Near(ack, c.pending[k].number)
    ensures C.AckedCount(c.pending, ack) == if c.pending != [] && ack == Base(c) + 1 then 1 else 0
  {
    if c.pending != [] {
      WindowedComparison(ack, c.pending[0].number);
      if ack == Base(c) + 1 && |c.pending| > 1 {
        assert c.pending[1..][0] == c.pending[1];
        WindowedComparison(ack, c.pending[1].number);
      }
    }
  }

  lemma AckNothing(c: C.State, ack: nat)
    requires C.AckedCount(c.pending, ack) == 0
    ensures C.Acknowledge(c, ack) == c
  {
    hide C.AckedCount;
    assert c.pending[0..] == c.pending && c.pending[..0] == [];
    assert C.Entries(c.race, []) == {};
  }

  lemma AckFront(c: C.State, ack: nat)
    requires QueueOk(c) && c.pending != [] && C.AckedCount(c.pending, ack) == 1
    ensures var c' := C.Acknowledge(c, ack);
      && c' == c.(pending := c.pending[1..], history := c.history.(acked := c'.history.acked))
      && QueueOk(c') && Base(c') == Base(c) + 1
      && c'.history.acked == c.history.acked + {C.Issued(c.race, c.pending[0].number, c.pending[0].command)}
  {
    hide C.AckedCount;
    assert forall j :: 0 <= j < |c.pending| - 1 ==> c.pending[1..][j] == c.pending[j + 1];
    assert c.pending[..1] == [c.pending[0]];
    assert C.Entries(c.race, [c.pending[0]]) == {C.Issued(c.race, c.pending[0].number, c.pending[0].command)};
  }

  lemma AckQueue(c: C.State, ack: nat)
    requires QueueOk(c) && ack <= Base(c) + 1
    requires forall k :: 0 <= k < |c.pending| ==> Near(ack, c.pending[k].number)
    ensures var c' := C.Acknowledge(c, ack);
      && QueueOk(c')
      && Base(c') == (if c.pending != [] && ack == Base(c) + 1 then Base(c) + 1 else Base(c))
      && c'.history.acked == c.history.acked + (if c.pending != [] && ack == Base(c) + 1
            then {C.Issued(c.race, c.pending[0].number, c.pending[0].command)} else {})
  {
    hide QueueOk, C.Acknowledge, C.AckedCount;
    AckedOne(c, ack);
    if c.pending != [] && ack == Base(c) + 1 {
      AckFront(c, ack);
    } else {
      AckNothing(c, ack);
    }
  }

  lemma AckStream(c: C.State, ack: nat, done: seq<Processed>, race: nat, past: seq<Room>)
    requires StreamOk(c, done, race, past) && c.slot >= 0 && ack <= |done|
    requires forall k :: 0 <= k < |c.pending| ==> Near(ack, c.pending[k].number)
    ensures var c' := C.Acknowledge(c, ack);
      && StreamOk(c', done, race, past) && MailsKept(c, c')
      && (ack == |done| ==> Base(c') == |done|)
  {
    hide DoneOk, IssuedOk, ClearedOk, FutureAckOk, C.AckedCount, C.Entries;
    AckQueue(c, ack);
    var c' := C.Acknowledge(c, ack);
    assert IssuedOk(c') && DoneOk(c', done) && ClearedOk(c', done, race) && FutureAckOk(c', done, past) by {
      AckFrame(c, c', done, race, past);
    }
  }

  lemma AckFrame(c: C.State, c': C.State, done: seq<Processed>, race: nat, past: seq<Room>)
    requires IssuedOk(c) && DoneOk(c, done) && ClearedOk(c, done, race) && FutureAckOk(c, done, past)
    requires c'.race == c.race && c'.commandSeq == c.commandSeq && c'.token == c.token
    requires c'.history.issued == c.history.issued && c'.history.cleared == c.history.cleared
    ensures IssuedOk(c') && DoneOk(c', done) && ClearedOk(c', done, race) && FutureAckOk(c', done, past)
  {
  }

  // Race changes.

  lemma ChangeRaceStream(c: C.State, race': nat, ack: nat, done: seq<Processed>, race: nat, past: seq<Room>)
    requires StreamOk(c, done, race, past) && c.slot >= 0
    requires c.race < race' <= race && ack == |done| && Base(c) == |done|
    ensures var c' := C.ChangeRace(c, race', ack); StreamOk(c', done, race, past) && MailsKept(c, c')
  {
  }

  // Snapshots.

  lemma BufferAppends(buffer: seq<C.Sample>, mine: seq<C.Taken>, past: seq<Room>, x: C.Sample, t: C.Taken)
    requires WithinPast(mine, past) && Buffers(buffer, mine, past) && ShowsOne(x, t, past)
    ensures WithinPast(mine + [t], past) && Buffers(C.Newest(buffer + [x]), mine + [t], past)
  {
    hide Shows, Buffers;
    if |mine| < C.BUFFER_LIMIT {
      BufferGrows(buffer, mine, past, x, t);
    } else {
      BufferShifts(buffer, mine, past, x, t);
    }
  }

  lemma BufferGrows(buffer: seq<C.Sample>, mine: seq<C.Taken>, past: seq<Room>, x: C.Sample, t: C.Taken)
    requires WithinPast(mine, past) && Buffers(buffer, mine, past) && ShowsOne(x, t, past)
    requires |mine| < C.BUFFER_LIMIT
    ensures WithinPast(mine + [t], past) && Buffers(buffer + [x], mine + [t], past)
    ensures C.Newest(buffer + [x]) == buffer + [x]
  {
    hide Shows;
  }

  lemma BufferShifts(buffer: seq<C.Sample>, mine: seq<C.Taken>, past: seq<Room>, x: C.Sample, t: C.Taken)
    requires WithinPast(mine, past) && Buffers(buffer, mine, past) && ShowsOne(x, t, past)
    requires |mine| >= C.BUFFER_LIMIT
    ensures WithinPast(mine + [t], past) && Buffers(buffer[1..] + [x], mine + [t], past)
    ensures C.Newest(buffer + [x]) == buffer[1..] + [x]
  {
    hide Shows;
    var kept, mine' := buffer[1..] + [x], mine + [t];
    forall j | 0 <= j < |kept| ensures ShowsOne(kept[j], mine'[|mine'| - |kept| + j], past) {
      if j < |buffer| - 1 {
        assert ShowsOne(buffer[j + 1], mine[|mine| - |buffer| + (j + 1)], past);
      }
    }
  }

  lemma {:induction false} NoneOfRace(taken: seq<C.Taken>, race: nat, past: seq<Room>)
    requires WithinPast(taken, past) && forall k :: 0 <= k < |taken| ==> past[taken[k].number - 1].race != race
    ensures OfRace(taken, race, past) == []
  {
    if taken != [] {
      NoneOfRace(taken[..|taken| - 1], race, past);
    }
  }

  lemma OfRaceAppends(taken: seq<C.Taken>, t: C.Taken, race: nat, past: seq<Room>)
    requires WithinPast(taken, past) && 1 <= t.number <= |past| && past[t.number - 1].race == race
    ensures WithinPast(taken + [t], past) && OfRace(taken + [t], race, past) == OfRace(taken, race, past) + [t]
  {
    assert (taken + [t])[..|taken|] == taken;
  }

  /** Everything accepted so far shows the client's race or an earlier one. */
  lemma TakenRaces(c: C.State, room: Room, past: seq<Room>)
    requires TakenOk(c, past) && ViewOk(c, past) && PastOk(room, past)
    ensures forall k :: 0 <= k < |c.history.taken| ==> past[c.history.taken[k].number - 1].race <= c.race
  {
    hide SameRace, Invariant, ViewOf;
    forall k | 0 <= k < |c.history.taken| ensures past[c.history.taken[k].number - 1].race <= c.race {
      if c.history.taken[k].number < c.snapshotSeq {
        assert Evolves(past[c.history.taken[k].number - 1], past[c.snapshotSeq - 1]);
      }
    }
  }

  /** The buffer after one more snapshot, of the same race or of a later one. */
  lemma ObserveBuffers(c: C.State, c2: C.State, v: View, room: Room, past: seq<Room>)
    requires BufferOk(c, past) && ViewOk(c, past) && PastOk(room, past)
    requires c.open && c2.open && c2.history.taken == c.history.taken
    requires c.snapshotSeq < c2.snapshotSeq <= |past|
    requires v == ViewOf(past[c2.snapshotSeq - 1], v.time) && c2.race == past[c2.snapshotSeq - 1].race
    requires if c2.race == c.race then c2.buffer == c.buffer else c2.race > c.race && c2.buffer == []
    ensures BufferOk(C.Observe(c2, v), past)
  {
    hide PastOk, ViewOk, ViewOf, C.Newest, Buffers, OfRace, TakenOk, WithinPast, Shows;
    var taken, k := c.history.taken, c2.snapshotSeq;
    var x, t := C.Sample(v.time, v.peers), C.Taken(k, v.time);
    TakenAppends(c, C.Observe(c2, v), past);
    assert Shows(x, t, past[k - 1]) by { ShowsView(past[k - 1], v, k); }
    OfRaceAppends(taken, t, c2.race, past);
    assert Buffers(c2.buffer, OfRace(taken, c2.race, past), past) by {
      if c2.race != c.race {
        TakenRaces(c, room, past);
        NoneOfRace(taken, c2.race, past);
        NoSamples(past);
      }
    }
    BufferAppends(c2.buffer, OfRace(taken, c2.race, past), past, x, t);
  }

  lemma TakenAppends(c: C.State, c': C.State, past: seq<Room>)
    requires TakenOk(c, past) && c.snapshotSeq < c'.snapshotSeq <= |past|
    requires |c'.history.taken| == |c.history.taken| + 1 && c.history.taken <= c'.history.taken
    requires c'.history.taken[|c.history.taken|] == C.Taken(c'.snapshotSeq, c'.view.time)
    ensures TakenOk(c', past) && WithinPast(c.history.taken, past)
  {
  }

  lemma ShowsView(r: Room, v: View, number: nat)
    requires v == ViewOf(r, v.time)
    ensures Shows(C.Sample(v.time, v.peers), C.Taken(number, v.time), r)
  {
  }

  lemma NoSamples(past: seq<Room>)
    ensures Buffers([], [], past)
  {
  }

  /** What a received snapshot is: the room at that number, addressed to this client. */
  lemma SnapshotIsPast(s: System, n: nat, p: Packet)
    requires Ok(s) && n in s.clients && s.clients[n].token != 0
    requires ToClient(s.clients[n].address, p) in s.net && p.body.Snapshot? && p.token == s.clients[n].token
    ensures 1 <= p.number <= |s.past|
    ensures p.body.view == ViewOf(s.past[p.number - 1], p.body.view.time)
    ensures p.race == s.past[p.number - 1].race <= s.room.race
    ensures p.token in s.processed && p.ack <= |s.processed[p.token]|
    ensures p.race > s.clients[n].race ==> p.ack == |s.processed[p.token]|
  {
    hide Invariant, StatusOk, SeatedOk, OwnersOk, GameOk, ViewOk, OnceOk, TimelyOk, DoneOk, AckedOk, ClearedOk,
      IssuedOk, QueueOk, FrontOk, BufferOk, UnjoinedOk, SameRace;
    var m := ToClient(s.clients[n].address, p);
    assert MailOk(m, s);
    assert ClientOk(n, s);
    var r := s.past[p.number - 1];
    assert Evolves(r, s.room);
    var i :| 0 <= i < 4 && Occupied(r.players[i]) && m == SnapshotTo(r, i, p.body.view.time);
  }

  lemma ObserveKnows(c: C.State, c2: C.State, v: View, number: nat, room: Room, past: seq<Room>)
    requires Knows(c, room, past) && PastOk(room, past) && IssuedOk(c) && c2.snapshotSeq == number
    requires c.open && c2.open && c2.history.taken == c.history.taken
    requires 1 <= number <= |past| && number > c.snapshotSeq
    requires v == ViewOf(past[number - 1], v.time) && c2.race == past[number - 1].race
    requires c2.slot == c.slot && c2.history.issued == c.history.issued
    requires c2.history.prepared == c.history.prepared && c2.history.located == c.history.located
             && c2.history.entered == c.history.entered && c2.requests == c.requests
    requires if c2.race == c.race
      then c2.game == c.game && c2.buffer == c.buffer && c2.car == c.car
           && c2.selectedSent == c.selectedSent && c2.loadedSent == c.loadedSent && c2.finishedSent == c.finishedSent
      else c2.race > c.race && c2.game == C.Init && c2.buffer == [] && c2.car == 0
    ensures Knows(C.Observe(c2, v), room, past)
  {
    hide PastOk, IssuedOk, OnceOk, GameOk, TimelyOk, BufferOk, ViewOf, C.Newest;
    var c3 := C.Observe(c2, v);
    ObserveBuffers(c, c2, v, room, past);
    assert OnceOk(c3) by { OnceAcross(c, c3); }
    assert GameOk(c3, past) by { GameAcross(c, c3, room, past); }
    SameTimely(c, c3, room);
  }

  lemma OnceAcross(c: C.State, c3: C.State)
    requires OnceOk(c) && IssuedOk(c) && c3.history.issued == c.history.issued && c3.requests == c.requests
    requires if c3.race == c.race
      then c3.car == c.car && c3.selectedSent == c.selectedSent && c3.loadedSent == c.loadedSent
           && c3.finishedSent == c.finishedSent
      else c3.race > c.race && c3.car == 0
    ensures OnceOk(c3)
  {
  }

  lemma GameAcross(c: C.State, c3: C.State, room: Room, past: seq<Room>)
    requires GameOk(c, past) && PastOk(room, past) && ViewOk(c3, past)
    requires c3.slot == c.slot && c3.snapshotSeq > c.snapshotSeq
    requires c3.history.prepared == c.history.prepared && c3.history.located == c.history.located
             && c3.history.entered == c.history.entered
    requires if c3.race == c.race then c3.game == c.game else c3.game == C.Init
    ensures GameOk(c3, past)
  {
    hide Invariant, Frozen, Committed, PreparedOk, LocatedOk, EnteredOk, ViewOf;
    if GameSetUp(c3.game) {
      assert Evolves(past[c.snapshotSeq - 1], past[c3.snapshotSeq - 1]);
    }
  }

  lemma RearmSound(c: C.State, done: seq<Processed>, room: Room, past: seq<Room>)
    requires Sound(c, done, room, past) && c.slot >= 0
    ensures Sound(C.Rearm(c), done, room, past) && MailsKept(c, C.Rearm(c))
  {
    hide IssuedOk, DoneOk, AckedOk, ClearedOk, FutureAckOk, QueueOk, FrontOk, OnceOk, ViewOk, GameOk, BufferOk,
      TimelyOk, CommandMailOk;
    if C.Rearm(c) != c {
      var m := Marked(c, Arm(c.view.start));
      MarkedSound(c, Arm(c.view.start), done, room, past);
      assert m == C.Queue(c, Arm(c.view.start));
      var c' := m.(armedTime := c.view.start);
      assert c' == C.Rearm(c);
      SoundFrame(m, c', done, room, past);
    }
  }

  /** Fields that no predicate looks at. */
  lemma SoundFrame(c: C.State, c': C.State, done: seq<Processed>, room: Room, past: seq<Room>)
    requires Sound(c, done, room, past) && SameStream(c, c') && SameKnowledge(c, c')
    requires c'.selectedSent == c.selectedSent && c'.loadedSent == c.loadedSent && c'.finishedSent == c.finishedSent
    ensures Sound(c', done, room, past) && MailsKept(c, c')
  {
    hide DoneOk, AckedOk, ClearedOk, FutureAckOk, QueueOk, FrontOk, ViewOk, GameOk, BufferOk, CommandMailOk;
    SameStreamOk(c, c', done, room.race, past);
    SameKnowledgeOk(c, c', past);
    SameTimely(c, c', room);
  }

  /** The stream part of accepting a snapshot. */
  lemma SnapshotStream(c: C.State, p: Packet, done: seq<Processed>, race: nat, past: seq<Room>)
    requires StreamOk(c, done, race, past) && c.slot >= 0 && p.body.Snapshot?
    requires Near(p.race, c.race) && c.race <= p.race <= race && p.ack <= |done|
    requires p.race > c.race ==> p.ack == |done|
    requires forall k :: 0 <= k < |c.pending| ==> Near(p.ack, c.pending[k].number)
    ensures var c1 := C.Acknowledge(c.(snapshotSeq := p.number), p.ack);
      var c2 := if Same(p.race, c.race) then c1 else C.ChangeRace(c1, p.race, p.ack);
      StreamOk(c2, done, race, past) && MailsKept(c, c2)
  {
    hide IssuedOk, DoneOk, AckedOk, ClearedOk, FutureAckOk, QueueOk, FrontOk, CommandMailOk, C.Acknowledge,
      C.ChangeRace;
    var c0 := c.(snapshotSeq := p.number);
    SameStreamOk(c, c0, done, race, past);
    var c1 := C.Acknowledge(c0, p.ack);
    AckStream(c0, p.ack, done, race, past);
    MailsKeptTransitive(c, c0, c1);
    WindowedComparison(p.race, c.race);
    if p.race != c.race {
      assert c1.race == c.race && c1.slot == c.slot by { AckKeeps(c0, p.ack); }
      ChangeRaceStream(c1, p.race, p.ack, done, race, past);
      MailsKeptTransitive(c, c1, C.ChangeRace(c1, p.race, p.ack));
    }
  }

  lemma AckKeeps(c: C.State, ack: nat)
    ensures C.Acknowledge(c, ack).race == c.race && C.Acknowledge(c, ack).slot == c.slot
  {
  }

  /** What acknowledgement and a possible race change leave of a client. */
  lemma SnapshotFields(c: C.State, p: Packet)
    requires p.body.Snapshot? && Near(p.race, c.race) && c.race <= p.race
    ensures var c1 := C.Acknowledge(c.(snapshotSeq := p.number), p.ack);
      var c2 := if Same(p.race, c.race) then c1 else C.ChangeRace(c1, p.race, p.ack);
      && c2.snapshotSeq == p.number && c2.race == p.race && c2.open == c.open && c2.slot == c.slot
      && c2.history == c.history.(acked := c2.history.acked, cleared := c2.history.cleared)
      && c2.requests == c.requests
      && if c2.race == c.race
         then c2.game == c.game && c2.buffer == c.buffer && c2.car == c.car && c2.selectedSent == c.selectedSent
              && c2.loadedSent == c.loadedSent && c2.finishedSent == c.finishedSent
         else c2.race > c.race && c2.game == C.Init && c2.buffer == [] && c2.car == 0
  {
    hide C.AckedCount, C.Entries;
    WindowedComparison(p.race, c.race);
  }

  lemma SnapshotSound(c: C.State, p: Packet, done: seq<Processed>, room: Room, past: seq<Room>)
    requires Sound(c, done, room, past) && c.slot >= 0 && c.open && PastOk(room, past)
    requires p.body.Snapshot? && 1 <= p.number <= |past| && p.number > c.snapshotSeq
    requires p.body.view == ViewOf(past[p.number - 1], p.body.view.time) && p.race == past[p.number - 1].race
    requires Near(p.race, c.race) && c.race <= p.race <= room.race && p.ack <= |done|
    requires p.race > c.race ==> p.ack == |done|
    requires forall k :: 0 <= k < |c.pending| ==> Near(p.ack, c.pending[k].number)
    ensures Sound(C.TakeSnapshot(c, p), done, room, past) && MailsKept(c, C.TakeSnapshot(c, p))
  {
    hide StreamOk, CommandMailOk, OnceOk, ViewOk, GameOk, BufferOk, TimelyOk, PastOk, C.Rearm, C.Newest, C.Acknowledge,
      C.ChangeRace, MailsKept, Same;
    var c1 := C.Acknowledge(c.(snapshotSeq := p.number), p.ack);
    var c2 := if Same(p.race, c.race) then c1 else C.ChangeRace(c1, p.race, p.ack);
    SnapshotFields(c, p);
    SnapshotStream(c, p, done, room.race, past);
    assert IssuedOk(c) by { StreamIssued(c, done, room.race, past); }
    ObserveKnows(c, c2, p.body.view, p.number, room, past);
    var c3 := C.Observe(c2, p.body.view);
    SameStreamOk(c2, c3, done, room.race, past);
    RearmSound(c3, done, room, past);
    MailsKeptTransitive(c, c2, c3);
    MailsKeptTransitive(c, c3, C.Rearm(c3));
  }

  // Joining.

  lemma WelcomeSound(s: System, n: nat, p: Packet)
    requires Ok(s) && n in s.clients && s.clients[n].token == 0
    requires C.Welcomes(s.clients[n], p) && ToClient(s.clients[n].address, p) in s.net
    ensures p.token in s.owners && s.owners[p.token] == n && p.token in s.processed && p.session == s.room.session
    ensures var c := s.clients[n];
      Sound(c.(slot := p.body.slot, session := p.session, token := p.token, race := p.race, commandSeq := p.ack),
            s.processed[p.token], s.room, s.past)
  {
    hide Invariant, StatusOk, SeatedOk, PastOk, StreamOk, ViewOk, GameOk, OnceOk, TimelyOk, UnjoinedOk, BufferOk;
    var c := s.clients[n];
    assert MailOk(ToClient(c.address, p), s);
    assert ClientOk(n, s);
    assert s.processed[p.token] == [];
    NewlyJoined(c, p, s.room, s.past, s.processed);
  }

  lemma NewlyJoined(c: C.State, p: Packet, room: Room, past: seq<Room>, processed: map<nat, seq<Processed>>)
    requires UnjoinedOk(c) && BufferOk(c, past) && OnceOk(c) && C.Welcomes(c, p) && PastSeatedOk(past, processed)
    requires p.token in processed && processed[p.token] == [] && p.race <= room.race && p.ack == 0
    ensures var c' := c.(slot := p.body.slot, session := p.session, token := p.token, race := p.race,
                         commandSeq := p.ack);
      Sound(c', [], room, past)
  {
    var c' := c.(slot := p.body.slot, session := p.session, token := p.token, race := p.race, commandSeq := p.ack);
    assert c'.history.issued == [] && c'.history.acked == {} && c'.history.cleared == {};
    assert StreamOk(c', [], room.race, past);
    assert ViewOk(c', past) && GameOk(c', past) && TimelyOk(c', room);
  }
}
