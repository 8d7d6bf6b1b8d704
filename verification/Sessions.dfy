/**
  The session worker: user-interface calls and worker steps interleave under a mutex, and a generation number keeps
  results of superseded requests from being delivered.

  Each constructor of `Event` is one critical section, or one stretch of worker code that touches no shared state.
  */
module Sessions {
  import opened Options

  const COMMAND_LIMIT: nat := 8

  datatype Kind = Stop | Host | Join

  datatype Request = Request(kind: Kind, address: string, key: string, generation: nat)

  datatype Connection = Connection(address: string, key: string, ownerNonce: nat, generation: nat)

  /** A connection handed to the user interface, and the newest generation at that moment. */
  datatype Delivery = Delivery(connection: Connection, newest: nat)

  /** The worker's own variables: the commands it has taken, the operation it is on, a hosted connection it is about
      to publish, whether its server runs, the name resolution it is waiting for, and the state it will show. */
  datatype Worker = Worker(batch: seq<Request>, operation: nat, hosted: Option<Connection>, serving: bool,
                           resolving: bool, joinKey: string, state: string)

  const IDLE := Worker([], 0, None, false, false, "", "idle")

  datatype Published = Published(state: string, generation: nat)

  /** `log` records every accepted request, and `delivered` every connection handed to the user interface. */
  datatype Session = Session(running: bool, generation: nat, commands: seq<Request>, connection: Option<Connection>,
                             published: Published, worker: Worker, log: seq<Request>, delivered: seq<Delivery>)

  const FRESH := Session(false, 0, [], None, Published("idle", 0), IDLE, [], [])

  /** What a poll of the hosted server comes to: nothing new, the owner has joined, or the end of the room. */
  datatype Poll = Going | Ready | Ended(failed: bool)

  datatype Event =
    | Enqueue(kind: Kind, address: string, key: string, started: bool)
    | TakeConnection
    | Connected
    | WorkerStarts
    | WorkerTakes
    | WorkerBegins(created: bool, nonce: nat)
    | WorkerHosts
    | WorkerResolved(found: bool, resolved: string)
    | WorkerServes(poll: Poll)
    | WorkerPublishes
    | WorkerExits

  function Named(k: Kind): string {
    if k.Stop? then "stopping" else "starting"
  }

  function Started(s: Session): Session {
    if s.running then s else s.(running := true, worker := IDLE)
  }

  /** `started` says whether a worker thread exists after `start()`. */
  function DoEnqueue(s: Session, k: Kind, address: string, key: string, started: bool): Session {
    if !started then s.(published := s.published.(state := "error"))
    else
      var s1 := Started(s);
      if k != Stop && |s1.commands| >= COMMAND_LIMIT then s1
      else
        var g := s1.generation + 1;
        s1.(generation := g,
            commands := (if k == Stop then [] else s1.commands) + [Request(k, address, key, g)],
            connection := None,
            published := Published(Named(k), g),
            log := s1.log + [Request(k, address, key, g)])
  }

  /** What `takeConnection` returns. */
  function Taken(s: Session): Option<Connection> {
    if s.connection.Some? && s.connection.value.generation == s.generation then s.connection else None
  }

  function DoTake(s: Session): Session {
    s.(connection := None,
       delivered := s.delivered + if Taken(s).Some? then [Delivery(Taken(s).value, s.generation)] else [])
  }

  function DoConnected(s: Session): Session {
    if s.published.state == "connecting" then s.(published := s.published.(state := "connected")) else s
  }

  function DoTakeCommands(s: Session): Session {
    s.(worker := s.worker.(batch := s.commands), commands := [])
  }

  /** The state a command leaves the worker in. */
  function Begun(k: Kind, created: bool): string {
    match k
    case Stop => "idle"
    case Host => if created then "starting" else "error"
    case Join => "resolving"
  }

  /** One taken command: whatever ran before is stopped, and hosting or resolving begins. */
  function DoBegin(s: Session, created: bool, nonce: nat): Session
    requires s.worker.batch != []
  {
    var c := s.worker.batch[0];
    var hosts := c.kind == Host && created;
    s.(worker := Worker(s.worker.batch[1..], c.generation,
                        if hosts then Some(Connection(c.address, c.key, nonce, c.generation)) else None, hosts,
                        c.kind == Join, c.key, Begun(c.kind, created)))
  }

  function Store(s: Session, c: Connection): Session {
    if s.worker.operation == s.generation then s.(connection := Some(c)) else s
  }

  function DoHost(s: Session): Session
    requires s.worker.hosted.Some?
  {
    Store(s.(worker := s.worker.(hosted := None)), s.worker.hosted.value)
  }

  function DoResolved(s: Session, found: bool, address: string): Session {
    var s1 := s.(worker := s.worker.(resolving := false, state := if found then "connecting" else "error"));
    if found then Store(s1, Connection(address, s.worker.joinKey, 0, s.worker.operation)) else s1
  }

  function DoServe(s: Session, poll: Poll): Session {
    match poll
    case Going => s
    case Ready => s.(worker := s.worker.(state := "hosting"))
    case Ended(failed) => s.(worker := s.worker.(serving := false, state := if failed then "error" else "idle"))
  }

  /** The state shown: a session that the user interface has reported connected does not fall back to connecting. */
  function Merged(s: Session): string {
    if s.published.state == "connected" && s.worker.state == "connecting"
      && s.published.generation == s.worker.operation
    then "connected" else s.worker.state
  }

  function DoPublish(s: Session): Session {
    s.(worker := s.worker.(state := Merged(s)),
       published := if s.worker.operation == s.generation then Published(Merged(s), s.worker.operation)
         else s.published)
  }

  function DoExit(s: Session): Session {
    s.(running := false, worker := IDLE, connection := None, commands := [],
       published := Published("idle", s.worker.operation))
  }

  /** The worker is between two commands. */
  predicate AtRest(s: Session) {
    s.running && s.worker.batch == [] && s.worker.hosted.None?
  }

  predicate Enabled(s: Session, e: Event) {
    match e
    case Enqueue(_, _, _, started) => s.running ==> started
    case TakeConnection => true
    case Connected => true
    case WorkerStarts => true
    case WorkerTakes => AtRest(s)
    case WorkerBegins(_, _) => s.running && s.worker.batch != [] && s.worker.hosted.None?
    case WorkerHosts => s.running && s.worker.hosted.Some?
    case WorkerResolved(_, _) => AtRest(s) && s.worker.resolving
    case WorkerServes(_) => AtRest(s) && s.worker.serving
    case WorkerPublishes => AtRest(s)
    case WorkerExits => AtRest(s)
  }

  function Step(s: Session, e: Event): Session
    requires Enabled(s, e)
  {
    match e
    case Enqueue(k, address, key, started) => DoEnqueue(s, k, address, key, started)
    case TakeConnection => DoTake(s)
    case Connected => DoConnected(s)
    case WorkerStarts => Started(s)
    case WorkerTakes => DoTakeCommands(s)
    case WorkerBegins(created, nonce) => DoBegin(s, created, nonce)
    case WorkerHosts => DoHost(s)
    case WorkerResolved(found, address) => DoResolved(s, found, address)
    case WorkerServes(poll) => DoServe(s, poll)
    case WorkerPublishes => DoPublish(s)
    case WorkerExits => DoExit(s)
  }

  // The invariant.

  /** This generation was accepted as a request of this kind. */
  predicate Requested(generation: nat, kind: Kind, log: seq<Request>) {
    1 <= generation <= |log| && log[generation - 1].kind == kind
  }

  /** Requests waiting to be processed, after the operation in progress, in the order of their acceptance. */
  predicate InOrder(waiting: seq<Request>, operation: nat, log: seq<Request>) {
    && (forall k :: 0 <= k < |waiting| ==>
          && operation < waiting[k].generation <= |log|
          && log[waiting[k].generation - 1] == waiting[k])
    && forall j, k :: 0 <= j < k < |waiting| ==> waiting[j].generation < waiting[k].generation
  }

  predicate Connecting(state: string) {
    state == "connecting" || state == "connected"
  }

  /** The connection is what this request asked for: its key, and for a hosted room its address. */
  predicate Answers(c: Connection, log: seq<Request>) {
    && 1 <= c.generation <= |log|
    && var q := log[c.generation - 1];
       q.kind != Stop && c.key == q.key && (q.kind == Host ==> c.address == q.address)
       && (q.kind == Join ==> c.ownerNonce == 0)
  }

  predicate WorkerOk(w: Worker, log: seq<Request>) {
    && w.operation <= |log|
    && (w.hosted.Some? ==> Answers(w.hosted.value, log) && w.hosted.value.generation == w.operation
                           && Requested(w.operation, Host, log))
    && (w.resolving ==> w.operation > 0 && w.joinKey == log[w.operation - 1].key)
    && (w.resolving ==> Requested(w.operation, Join, log) && !w.serving)
    && (Connecting(w.state) ==> !w.resolving && !w.serving && w.hosted.None?)
  }

  predicate DeliveryOk(d: Delivery, log: seq<Request>) {
    d.connection.generation == d.newest && Answers(d.connection, log)
  }

  predicate Ok(s: Session) {
    && s.generation == |s.log|
    && |s.commands| <= COMMAND_LIMIT
    && InOrder(s.worker.batch + s.commands, s.worker.operation, s.log)
    && WorkerOk(s.worker, s.log)
    && (s.connection.Some? ==>
          s.running && s.connection.value.generation == s.generation && Answers(s.connection.value, s.log))
    && (Connecting(s.published.state) ==>
          s.running && s.published.generation == s.generation == s.worker.operation && Connecting(s.worker.state))
    && (forall k :: 0 <= k < |s.delivered| ==> DeliveryOk(s.delivered[k], s.log))
  }

  lemma WorkerGrows(w: Worker, log: seq<Request>, more: seq<Request>)
    requires WorkerOk(w, log)
    ensures WorkerOk(w, log + more)
  {
  }

  lemma InOrderAppends(waiting: seq<Request>, operation: nat, log: seq<Request>, r: Request)
    requires InOrder(waiting, operation, log) && operation <= |log| && r.generation == |log| + 1
    ensures InOrder(waiting + [r], operation, log + [r])
  {
  }

  lemma InOrderFirst(waiting: seq<Request>, operation: nat, log: seq<Request>, n: nat)
    requires InOrder(waiting, operation, log) && n <= |waiting|
    ensures InOrder(waiting[..n], operation, log)
  {
  }

  lemma InOrderRest(waiting: seq<Request>, operation: nat, log: seq<Request>)
    requires InOrder(waiting, operation, log) && waiting != []
    ensures InOrder(waiting[1..], waiting[0].generation, log) && waiting[0].generation <= |log|
  {
  }

  lemma StartedOk(s: Session)
    requires Ok(s)
    ensures Ok(Started(s))
  {
    if !s.running {
      assert (s.worker.batch + s.commands)[|s.worker.batch|..] == s.commands;
    }
  }

  lemma EnqueueOk(s: Session, k: Kind, address: string, key: string, started: bool)
    requires Ok(s) && (s.running ==> started)
    ensures Ok(DoEnqueue(s, k, address, key, started))
  {
    hide Ok;
    StartedOk(s);
    if started {
      AcceptOk(Started(s), k, address, key);
    } else {
      RefuseOk(s);
    }
  }

  lemma RefuseOk(s: Session)
    requires Ok(s) && !s.running
    ensures Ok(s.(published := s.published.(state := "error")))
  {
  }

  lemma AcceptOk(s: Session, k: Kind, address: string, key: string)
    requires Ok(s) && s.running
    ensures Ok(DoEnqueue(s, k, address, key, true))
  {
    hide InOrder, WorkerOk;
    var w, r := s.worker, Request(k, address, key, s.generation + 1);
    var kept := if k == Stop then [] else s.commands;
    InOrderFirst(w.batch + s.commands, w.operation, s.log, |w.batch|);
    assert (w.batch + s.commands)[..|w.batch|] == w.batch == w.batch + [];
    assert w.operation <= |s.log| by { OperationBound(w, s.log); }
    InOrderAppends(w.batch + kept, w.operation, s.log, r);
    assert w.batch + (kept + [r]) == w.batch + kept + [r];
    WorkerGrows(w, s.log, [r]);
  }

  lemma OperationBound(w: Worker, log: seq<Request>)
    requires WorkerOk(w, log)
    ensures w.operation <= |log|
  {
  }

  lemma BeginOk(s: Session, created: bool, nonce: nat)
    requires Ok(s) && Enabled(s, WorkerBegins(created, nonce))
    ensures Ok(DoBegin(s, created, nonce))
  {
    var waiting := s.worker.batch + s.commands;
    assert waiting[0] == s.worker.batch[0] && waiting[1..] == s.worker.batch[1..] + s.commands;
    InOrderRest(waiting, s.worker.operation, s.log);
  }

  lemma StepOk(s: Session, e: Event)
    requires Ok(s) && Enabled(s, e)
    ensures Ok(Step(s, e))
  {
    hide Ok, DoEnqueue, DoBegin, DoTake, DoConnected, DoPublish;
    match e {
      case Enqueue(k, address, key, started) => EnqueueOk(s, k, address, key, started);
      case WorkerStarts => StartedOk(s);
      case WorkerBegins(created, nonce) => BeginOk(s, created, nonce);
      case TakeConnection => ShowOk(s);
      case Connected => ShowOk(s);
      case WorkerPublishes => ShowOk(s);
      case _ => WorkOk(s, e);
    }
  }

  /** What the user interface takes and is shown. */
  lemma ShowOk(s: Session)
    requires Ok(s)
    ensures Ok(DoTake(s)) && Ok(DoConnected(s)) && (s.running ==> Ok(DoPublish(s)))
  {
    hide InOrder, Requested;
  }

  lemma ResolvedOk(s: Session, found: bool, address: string)
    requires Ok(s) && Enabled(s, WorkerResolved(found, address))
    ensures Ok(DoResolved(s, found, address))
  {
    hide InOrder;
  }

  lemma HostsOk(s: Session)
    requires Ok(s) && Enabled(s, WorkerHosts)
    ensures Ok(DoHost(s))
  {
    hide InOrder;
  }

  lemma TakesOk(s: Session)
    requires Ok(s) && AtRest(s)
    ensures Ok(DoTakeCommands(s))
  {
    hide InOrder, Requested, Answers;
    assert s.worker.batch + s.commands == s.commands + [];
  }

  lemma ServesOk(s: Session, poll: Poll)
    requires Ok(s) && Enabled(s, WorkerServes(poll))
    ensures Ok(DoServe(s, poll))
  {
    hide InOrder, Requested, Answers;
  }

  lemma ExitsOk(s: Session)
    requires Ok(s)
    ensures Ok(DoExit(s))
  {
    hide Requested, Answers;
  }

  lemma WorkOk(s: Session, e: Event)
    requires Ok(s) && Enabled(s, e)
    requires e.WorkerTakes? || e.WorkerHosts? || e.WorkerResolved? || e.WorkerServes? || e.WorkerExits?
    ensures Ok(Step(s, e))
  {
    hide Ok, DoHost, DoResolved, DoServe, DoTakeCommands, DoExit;
    match e {
      case WorkerTakes => TakesOk(s);
      case WorkerHosts => HostsOk(s);
      case WorkerResolved(found, address) => ResolvedOk(s, found, address);
      case WorkerServes(poll) => ServesOk(s, poll);
      case WorkerExits => ExitsOk(s);
    }
  }

  // Runs.

  function Do(s: Session, e: Event): Session {
    if Enabled(s, e) then Step(s, e) else s
  }

  function Run(s: Session, es: seq<Event>): Session {
    if es == [] then s else Do(Run(s, es[..|es| - 1]), es[|es| - 1])
  }

  lemma {:induction false} RunOk(s: Session, es: seq<Event>)
    requires Ok(s)
    ensures Ok(Run(s, es))
  {
    if es != [] {
      RunOk(s, es[..|es| - 1]);
      var s1, e := Run(s, es[..|es| - 1]), es[|es| - 1];
      if Enabled(s1, e) {
        StepOk(s1, e);
      }
    }
  }

  /** In every interleaving: the command queue never exceeds eight; a stored connection always belongs to the newest
      accepted request, which is a host or join, and is what that asked for; and so did, and was, every connection
      at the moment of its delivery. */
  lemma Freshness(es: seq<Event>)
    ensures var s := Run(FRESH, es);
      && |s.commands| <= 8
      && (s.connection.Some? ==>
            s.connection.value.generation == s.generation == |s.log| && Answers(s.connection.value, s.log))
      && (s.connection.Some? ==> Taken(s) == s.connection)
      && (forall k :: 0 <= k < |s.delivered| ==>
            s.delivered[k].connection.generation == s.delivered[k].newest && Answers(s.delivered[k].connection, s.log))
  {
    RunOk(FRESH, es);
  }

  /** The newest accepted request is a stop. */
  predicate Stopped(s: Session) {
    s.log != [] && s.log[|s.log| - 1].kind == Stop
  }

  predicate AcceptsConnect(s: Session, e: Event) {
    Enabled(s, e) && e.Enqueue? && e.kind != Stop && |Step(s, e).log| > |s.log|
  }

  /** None of the events makes a new host or join request that is accepted. */
  predicate NoConnects(s: Session, es: seq<Event>) {
    forall k :: 0 <= k < |es| ==> !AcceptsConnect(Run(s, es[..k]), es[k])
  }

  lemma StoppedStep(s: Session, e: Event)
    requires Ok(s) && Stopped(s) && !AcceptsConnect(s, e)
    ensures Stopped(Do(s, e)) && Do(s, e).connection.None? && Do(s, e).delivered == s.delivered
  {
  }

  /** After a stop, nothing is stored or delivered until a later host or join is accepted, however the worker, user
      interface and an older name resolution interleave in between. */
  lemma {:induction false} StopSilences(s: Session, es: seq<Event>)
    requires Ok(s) && Stopped(s) && NoConnects(s, es)
    ensures var r := Run(s, es); Ok(r) && Stopped(r) && r.connection.None? && r.delivered == s.delivered
  {
    if es == [] {
    } else {
      var k := |es| - 1;
      var front := es[..k];
      forall j | 0 <= j < |front| ensures !AcceptsConnect(Run(s, front[..j]), front[j]) {
        assert front[..j] == es[..j];
      }
      StopSilences(s, front);
      RunOk(s, front);
      assert !AcceptsConnect(Run(s, es[..k]), es[k]);
      StoppedStep(Run(s, front), es[k]);
      RunOk(s, es);
    }
  }

  /** A request is accepted exactly when a worker can be had and, unless it is a stop, fewer than eight wait; it is then
      the last to wait, under a new generation, and any stored connection is dropped. */
  lemma AcceptedExactly(s: Session, k: Kind, address: string, key: string, started: bool)
    requires Ok(s) && (s.running ==> started)
    ensures var r := DoEnqueue(s, k, address, key, started);
      && (r.generation == s.generation + 1 <==> started && (k == Stop || |s.commands| < 8))
      && (r.generation == s.generation || r.generation == s.generation + 1)
      && (r.generation == s.generation + 1 ==>
            && r.connection.None? && r.running
            && r.commands == (if k == Stop then [] else s.commands) + [Request(k, address, key, r.generation)]
            && r.published == Published(if k == Stop then "stopping" else "starting", r.generation))
      && (r.generation == s.generation ==> r.commands == s.commands && r.connection == s.connection)
  {
  }

  /** A stop is accepted whenever a worker can be had, however full the queue. */
  lemma StopIsAccepted(s: Session, address: string, key: string)
    requires Ok(s)
    ensures var r := DoEnqueue(s, Stop, address, key, true);
      && Stopped(r) && r.connection.None? && r.generation == s.generation + 1
      && r.commands == [Request(Stop, address, key, r.generation)]
  {
  }

  // What reaches the user.

  function After(s: Session, es: seq<Event>): Session
    decreases |es|
  {
    if es == [] then s else After(Do(s, es[0]), es[1..])
  }

  /** The newest request waits for a worker at rest, alone. */
  predicate WaitsAlone(s: Session) {
    AtRest(s) && |s.commands| == 1 && s.commands[0].generation == s.generation && s.connection.None?
  }

  /** A host request that is still the newest when its server has been created is delivered when the user asks, with its
      address, its key and the owner's nonce. */
  lemma HostReachesUser(s: Session, nonce: nat)
    requires Ok(s) && WaitsAlone(s) && s.commands[0].kind == Host
    ensures var q := s.commands[0];
      var r := After(s, [WorkerTakes, WorkerBegins(true, nonce), WorkerHosts, TakeConnection]);
      r.delivered == s.delivered + [Delivery(Connection(q.address, q.key, nonce, s.generation), s.generation)]
  {
    var s1 := Do(s, WorkerTakes);
    var s2 := Do(s1, WorkerBegins(true, nonce));
    assert s2.worker.hosted.Some? && s2.running;
    AfterFour(s, WorkerTakes, WorkerBegins(true, nonce), WorkerHosts, TakeConnection);
  }

  lemma AfterThree(s: Session, a: Event, b: Event, c: Event)
    ensures After(s, [a, b, c]) == Do(Do(Do(s, a), b), c)
  {
    hide Do;
    assert [a, b, c][1..] == [b, c] && [b, c][1..] == [c] && [c][1..] == [];
    assert After(Do(Do(s, a), b), [c]) == After(Do(Do(Do(s, a), b), c), []);
    assert After(Do(s, a), [b, c]) == After(Do(Do(s, a), b), [c]);
  }

  lemma AfterFour(s: Session, a: Event, b: Event, c: Event, d: Event)
    ensures After(s, [a, b, c, d]) == Do(Do(Do(Do(s, a), b), c), d)
  {
    hide Do;
    assert [a, b, c, d][1..] == [b, c, d];
    AfterThree(Do(s, a), b, c, d);
  }

  /** A join request that is still the newest when its name is resolved is delivered with the resolved address and its
      key; if the name is not found, nothing is. */
  lemma JoinReachesUser(s: Session, found: bool, address: string)
    requires Ok(s) && WaitsAlone(s) && s.commands[0].kind == Join
    ensures var r := After(s, [WorkerTakes, WorkerBegins(false, 0), WorkerResolved(found, address), TakeConnection]);
      r.delivered == s.delivered
        + if found then [Delivery(Connection(address, s.commands[0].key, 0, s.generation), s.generation)] else []
  {
    var s1 := Do(s, WorkerTakes);
    var s2 := Do(s1, WorkerBegins(false, 0));
    assert s2.worker.resolving && AtRest(s2);
    AfterFour(s, WorkerTakes, WorkerBegins(false, 0), WorkerResolved(found, address), TakeConnection);
  }

  /** What is shown after each poll of the server of the newest request. */
  lemma PollShown(s: Session, poll: Poll)
    requires Ok(s) && s.worker.operation == s.generation && Enabled(s, WorkerServes(poll))
    requires s.published.state != "connected"
    ensures Do(Do(s, WorkerServes(poll)), WorkerPublishes).published ==
      Published(match poll case Going => s.worker.state case Ready => "hosting"
                case Ended(failed) => if failed then "error" else "idle", s.generation)
  {
  }

  /** What is shown when the newest request has begun. */
  lemma BeginningShown(s: Session, created: bool, nonce: nat)
    requires Ok(s) && WaitsAlone(s) && !(s.commands[0].kind == Host && created) && s.published.state != "connected"
    ensures After(s, [WorkerTakes, WorkerBegins(created, nonce), WorkerPublishes]).published ==
      Published(match s.commands[0].kind case Stop => "idle" case Host => "error" case Join => "resolving",
                s.generation)
  {
    var s1 := Do(s, WorkerTakes);
    var s2 := Do(s1, WorkerBegins(created, nonce));
    assert AtRest(s2);
    AfterThree(s, WorkerTakes, WorkerBegins(created, nonce), WorkerPublishes);
  }

  /** The state shown for the newest request, whatever was shown before: idle after a stop, an error when hosting or
      resolving failed, and otherwise how far it has come. */
  lemma ShownState(s: Session)
    requires Ok(s) && AtRest(s)
    ensures var r := Do(s, WorkerPublishes);
      if s.worker.operation == s.generation
      then r.published == Published(if s.published == Published("connected", s.generation) then "connected"
                                    else s.worker.state, s.generation)
      else r.published == s.published
  {
  }

  // A restarted worker.

  /** The worker has begun no command since it started, so it can neither store nor show anything. */
  predicate Unengaged(s: Session) {
    s.worker.operation == 0 && !s.worker.resolving && !s.worker.serving && s.worker.hosted.None? && s.connection.None?
  }

  lemma UnengagedStep(s: Session, e: Event)
    requires Ok(s) && Unengaged(s) && s.generation > 0 && !e.WorkerBegins?
    ensures var r := Do(s, e);
      && Unengaged(r) && r.delivered == s.delivered && r.generation >= s.generation
      && (e.WorkerPublishes? ==> r.published == s.published)
  {
  }

  /** After a worker has exited, whatever follows, a worker that takes its place stores nothing, delivers nothing and
      shows nothing until it begins a command: its operation is zero, and the generation is not. */
  lemma {:induction false} RestartedWorkerIsQuiet(s: Session, es: seq<Event>)
    requires Ok(s) && Enabled(s, WorkerExits) && s.generation > 0
    requires forall k :: 0 <= k < |es| ==> !es[k].WorkerBegins?
    ensures var r := Run(DoExit(s), es);
      && Ok(r) && Unengaged(r) && r.generation >= s.generation && r.delivered == s.delivered
      && Do(r, WorkerPublishes).published == r.published
  {
    StepOk(s, WorkerExits);
    if es != [] {
      RestartedWorkerIsQuiet(s, es[..|es| - 1]);
      var r1, e := Run(DoExit(s), es[..|es| - 1]), es[|es| - 1];
      UnengagedStep(r1, e);
      if Enabled(r1, e) {
        StepOk(r1, e);
      }
    }
    UnengagedStep(Run(DoExit(s), es), WorkerPublishes);
  }

  // A connected session.

  lemma SomethingNewer(s: Session)
    requires Ok(s) && (s.worker.batch != [] || s.commands != [])
    ensures s.worker.operation < s.generation
  {
    var waiting := s.worker.batch + s.commands;
    assert s.worker.operation < waiting[0].generation <= |s.log|;
  }

  /** Nothing waits to be processed once the newest request is in progress. */
  lemma NothingWaits(s: Session)
    requires Ok(s) && s.worker.operation == s.generation
    ensures s.worker.batch == [] && s.commands == []
  {
    hide Ok;
    if s.worker.batch != [] || s.commands != [] {
      SomethingNewer(s);
    }
  }

  lemma ConnectedStep(s: Session, e: Event)
    requires Ok(s) && s.published.state == "connected" && !e.WorkerExits?
    ensures Do(s, e).generation > s.generation || Do(s, e).published == s.published
  {
    NothingWaits(s);
  }

  lemma GenerationGrows(s: Session, e: Event)
    ensures Do(s, e).generation >= s.generation
  {
  }

  /** A connecting session that the user interface reports connected is shown as connected, under its own generation,
      whatever follows, until a new request is accepted or the worker exits: the worker, which knows only that it is
      connecting, does not overwrite it. */
  lemma {:induction false} ConnectedSticks(s: Session, es: seq<Event>)
    requires Ok(s) && s.published.state == "connecting"
    requires forall k :: 0 <= k < |es| ==> !es[k].WorkerExits?
    ensures var r := Run(DoConnected(s), es);
      && Ok(r) && r.generation >= s.generation
      && (r.generation == s.generation ==> r.published == Published("connected", s.generation))
  {
    hide Ok;
    ShowOk(s);
    if es == [] {
      assert s.published.generation == s.generation by { ShownGeneration(s); }
    } else {
      ConnectedSticks(s, es[..|es| - 1]);
      var r1, e := Run(DoConnected(s), es[..|es| - 1]), es[|es| - 1];
      GenerationGrows(r1, e);
      if r1.generation == s.generation {
        ConnectedStep(r1, e);
      }
      if Enabled(r1, e) {
        StepOk(r1, e);
      }
    }
  }

  lemma ShownGeneration(s: Session)
    requires Ok(s) && Connecting(s.published.state)
    ensures s.published.generation == s.generation
  {
  }

  // The session object.

  class SessionObject {
    var running: bool
    var generation: nat
    var commands: seq<Request>
    var connection: Option<Connection>
    var published: Published
    var worker: Worker
    ghost var log: seq<Request>
    ghost var delivered: seq<Delivery>

    ghost function State(): Session
      reads this
    {
      Session(running, generation, commands, connection, published, worker, log, delivered)
    }

    constructor ()
      ensures State() == FRESH
    {
      running, generation, commands, connection := false, 0, [], None;
      published, worker := Published("idle", 0), IDLE;
      log, delivered := [], [];
    }

    method EnqueueCommand(k: Kind, address: string, key: string, started: bool) returns (accepted: bool)
      requires running ==> started
      modifies this
      ensures State() == DoEnqueue(old(State()), k, address, key, started)
      ensures accepted == (generation == old(generation) + 1)
    {
      if !started {
        published := published.(state := "error");
        return false;
      }
      if !running {
        running, worker := true, IDLE;
      }
      if k == Stop {
        commands := [];
      } else if |commands| >= COMMAND_LIMIT {
        return false;
      }
      generation := generation + 1;
      published := Published(if k == Stop then "stopping" else "starting", generation);
      commands := commands + [Request(k, address, key, generation)];
      connection := None;
      log := log + [Request(k, address, key, generation)];
      accepted := true;
    }

    method Take() returns (out: Option<Connection>)
      modifies this`connection, this`delivered
      ensures State() == DoTake(old(State()))
      ensures out == Taken(old(State()))
    {
      out := connection;
      connection := None;
      if out.Some? && out.value.generation != generation {
        out := None;
      }
      delivered := delivered + if out.Some? then [Delivery(out.value, generation)] else [];
    }

    method MarkConnected()
      modifies this`published
      ensures State() == DoConnected(old(State()))
    {
      if published.state == "connecting" {
        published := published.(state := "connected");
      }
    }

    method TakeCommands()
      modifies this`worker, this`commands
      ensures State() == DoTakeCommands(old(State()))
    {
      worker, commands := worker.(batch := commands), [];
    }

    method BeginCommand(created: bool, nonce: nat)
      requires worker.batch != []
      modifies this`worker
      ensures State() == DoBegin(old(State()), created, nonce)
    {
      var c := worker.batch[0];
      worker := worker.(batch := worker.batch[1..], hosted := None, serving := false, resolving := false,
                        operation := c.generation, joinKey := c.key, state := "idle");
      if c.kind == Host {
        if created {
          worker := worker.(hosted := Some(Connection(c.address, c.key, nonce, c.generation)), serving := true,
                            state := "starting");
        } else {
          worker := worker.(state := "error");
        }
      } else if c.kind == Join {
        worker := worker.(resolving := true, state := "resolving");
      }
    }

    method PublishHosted()
      requires worker.hosted.Some?
      modifies this`worker, this`connection
      ensures State() == DoHost(old(State()))
    {
      var c := worker.hosted.value;
      worker := worker.(hosted := None);
      if worker.operation == generation {
        connection := Some(c);
      }
    }

    method FinishResolution(found: bool, address: string)
      modifies this`worker, this`connection
      ensures State() == DoResolved(old(State()), found, address)
    {
      worker := worker.(resolving := false);
      if !found {
        worker := worker.(state := "error");
      } else {
        worker := worker.(state := "connecting");
        if worker.operation == generation {
          connection := Some(Connection(address, worker.joinKey, 0, worker.operation));
        }
      }
    }

    method PollServer(poll: Poll)
      modifies this`worker
      ensures State() == DoServe(old(State()), poll)
    {
      match poll {
        case Going =>
        case Ready => worker := worker.(state := "hosting");
        case Ended(failed) => worker := worker.(serving := false, state := if failed then "error" else "idle");
      }
    }

    method PublishState()
      modifies this`worker, this`published
      ensures State() == DoPublish(old(State()))
    {
      if published.state == "connected" && worker.state == "connecting" && published.generation == worker.operation {
        worker := worker.(state := "connected");
      }
      if worker.operation == generation {
        published := Published(worker.state, worker.operation);
      }
    }

    method Exit()
      modifies this
      ensures State() == DoExit(old(State()))
    {
      published := Published("idle", worker.operation);
      connection, commands, running, worker := None, [], false, IDLE;
    }
  }
}
