/**
 The lossy event path: emit puts events into a bounded source queue, the broker takes them out and
 offers each to every subscribed client's bounded channel, and a client's handler answers every
 event it receives with a fresh snapshot. Events are numbered in the order in which their emission
 was attempted; both queues drop what they cannot hold.
 */
module Events {

  const SOURCE_CAPACITY: nat := 64
  const CLIENT_CAPACITY: nat := 16

  /** A send that drops the event when the channel is full. */
  function Offer(q: seq<nat>, e: nat, capacity: nat): (r: seq<nat>)
    ensures q <= r && |r| <= |q| + 1
    ensures |q| <= capacity ==> |r| <= capacity
    ensures capacity > 0 ==> r != []
  {
    if |q| < capacity then q + [e] else q
  }

  datatype BrokerPc =
    | Receiving
    | Holding(e: nat)                      // received, lock not yet taken
    | Sending(e: nat, todo: set<nat>)      // lock held, clients still to be offered e
    | Halted

  datatype HandlerPc =
    | Waiting
    | Rendering      // an event was received, the snapshot not yet taken
    | Leaving        // the client is gone, Unsubscribe not yet entered
    | Closing        // no longer subscribed, channel not yet closed
    | Gone

  /**
   `seen` is the number of emissions attempted when the last snapshot was taken (or at the
   subscription), `joined` their number at the subscription, `start` the position in the accepted
   events from which the client is served, `got` what it has received, `drops` what it has missed.
   */
  datatype Client = Client(buf: seq<nat>, closed: bool, handler: HandlerPc, seen: nat, joined: nat, start: nat, got: seq<nat>, drops: nat)

  /** `accepted` are all events the source queue ever took, `taken` how many of them the broker received. */
  datatype Path = Path(
    emitted: nat,
    accepted: seq<nat>,
    taken: nat,
    source: seq<nat>,
    broker: BrokerPc,
    clients: map<nat, Client>,
    subscribed: set<nat>,
    panicked: bool)

  datatype PathAction =
    | EmitEvent
    | BrokerReceives
    | BrokerLocks
    | BrokerSends(id: nat)
    | BrokerUnlocks
    | BrokerStops
    | Subscribe(id: nat)
    | HandlerReceives(id: nat)
    | HandlerSnapshots(id: nat)
    | Disconnect(id: nat)
    | Unsubscribe(id: nat)
    | CloseChannel(id: nat)

  const START := Path(0, [], 0, [], Receiving, map[], {}, false)

  predicate LockFree(s: Path) {
    !s.broker.Sending?
  }

  predicate CanAct(s: Path, a: PathAction) {
    match a
    case EmitEvent => true
    case BrokerReceives => s.broker.Receiving? && s.source != []
    case BrokerLocks => s.broker.Holding?
    case BrokerSends(id) => s.broker.Sending? && id in s.broker.todo && id in s.clients
    case BrokerUnlocks => s.broker.Sending? && s.broker.todo == {}
    case BrokerStops => s.broker.Receiving?
    case Subscribe(id) => LockFree(s) && id !in s.clients
    case HandlerReceives(id) => id in s.clients && s.clients[id].handler.Waiting? && s.clients[id].buf != []
    case HandlerSnapshots(id) => id in s.clients && s.clients[id].handler.Rendering?
    case Disconnect(id) => id in s.clients && s.clients[id].handler.Waiting?
    case Unsubscribe(id) => LockFree(s) && id in s.clients && s.clients[id].handler.Leaving?
    case CloseChannel(id) => id in s.clients && s.clients[id].handler.Closing?
  }

  /** Position in the accepted events of the first one the broker has not begun to fan out. */
  function Frontier(s: Path): nat {
    if s.broker.Holding? && s.taken > 0 then s.taken - 1 else s.taken
  }

  /** A send on a closed channel, or a second close, would panic; the model records it instead. */
  function Act(s: Path, a: PathAction): Path
    requires CanAct(s, a)
  {
    match a
    case EmitEvent =>
      var source := Offer(s.source, s.emitted, SOURCE_CAPACITY);
      s.(emitted := s.emitted + 1, source := source,
         accepted := if source == s.source then s.accepted else s.accepted + [s.emitted])
    case BrokerReceives => s.(source := s.source[1..], taken := s.taken + 1, broker := Holding(s.source[0]))
    case BrokerLocks => s.(broker := Sending(s.broker.e, s.subscribed))
    case BrokerSends(id) =>
      var c := s.clients[id];
      var buf := Offer(c.buf, s.broker.e, CLIENT_CAPACITY);
      s.(broker := s.broker.(todo := s.broker.todo - {id}),
         clients := s.clients[id := c.(buf := buf, drops := if buf == c.buf then c.drops + 1 else c.drops)],
         panicked := s.panicked || c.closed)
    case BrokerUnlocks => s.(broker := Receiving)
    case BrokerStops => s.(broker := Halted)
    case Subscribe(id) =>
      s.(clients := s.clients[id := Client([], false, Waiting, s.emitted, s.emitted, Frontier(s), [], 0)],
         subscribed := s.subscribed + {id})
    case HandlerReceives(id) =>
      var c := s.clients[id];
      s.(clients := s.clients[id := c.(buf := c.buf[1..], got := c.got + [c.buf[0]], handler := Rendering)])
    case HandlerSnapshots(id) =>
      s.(clients := s.clients[id := s.clients[id].(seen := s.emitted, handler := Waiting)])
    case Disconnect(id) => s.(clients := s.clients[id := s.clients[id].(handler := Leaving)])
    case Unsubscribe(id) =>
      s.(clients := s.clients[id := s.clients[id].(handler := Closing)], subscribed := s.subscribed - {id})
    case CloseChannel(id) =>
      s.(clients := s.clients[id := s.clients[id].(handler := Gone, closed := true)],
         panicked := s.panicked || s.clients[id].closed)
  }

  predicate PathRuns(s: Path, acts: seq<PathAction>)
    decreases |acts|
  {
    acts == [] || (CanAct(s, acts[0]) && PathRuns(Act(s, acts[0]), acts[1..]))
  }

  function PathAfter(s: Path, acts: seq<PathAction>): Path
    requires PathRuns(s, acts)
    decreases |acts|
  {
    if acts == [] then s else PathAfter(Act(s, acts[0]), acts[1..])
  }

  // ---------------------------------------------------------------- channel safety

  ghost predicate ChannelsOk(s: Path) {
    && !s.panicked
    && |s.source| <= SOURCE_CAPACITY
    && s.subscribed <= s.clients.Keys
    && (s.broker.Sending? ==> s.broker.todo <= s.subscribed)
    && (forall id :: id in s.clients ==>
          && |s.clients[id].buf| <= CLIENT_CAPACITY
          && (id in s.subscribed <==> s.clients[id].handler.Waiting? || s.clients[id].handler.Rendering? || s.clients[id].handler.Leaving?)
          && (s.clients[id].closed <==> s.clients[id].handler.Gone?))
  }

  lemma StepKeepsChannels(s: Path, a: PathAction)
    requires ChannelsOk(s) && CanAct(s, a)
    ensures ChannelsOk(Act(s, a))
  {
  }

  // ---------------------------------------------------------------- no lost refresh

  /** A client that is still served. */
  predicate Served(s: Path, id: nat) {
    id in s.clients && (s.clients[id].handler.Waiting? || s.clients[id].handler.Rendering?)
  }

  /** The client's last snapshot predates an emission attempted since it subscribed. */
  predicate Stale(s: Path, id: nat)
    requires id in s.clients
  {
    s.clients[id].seen < s.emitted
  }

  /** Some event is on its way to the client, or has reached it and will be answered with a snapshot. */
  predicate RefreshPending(s: Path, id: nat)
    requires id in s.clients
  {
    || s.source != []
    || s.broker.Holding?
    || (s.broker.Sending? && id in s.broker.todo)
    || s.clients[id].buf != []
    || s.clients[id].handler.Rendering?
  }

  ghost predicate NoRefreshLost(s: Path) {
    !s.broker.Halted? ==> forall id :: Served(s, id) && Stale(s, id) ==> RefreshPending(s, id)
  }

  lemma StepKeepsRefresh(s: Path, a: PathAction)
    requires ChannelsOk(s) && NoRefreshLost(s) && CanAct(s, a)
    ensures NoRefreshLost(Act(s, a))
  {
    var s' := Act(s, a);
    if !s'.broker.Halted? {
      forall id | Served(s', id) && Stale(s', id)
        ensures RefreshPending(s', id)
      {
        if Served(s, id) && Stale(s, id) {
          assert RefreshPending(s, id);
        }
      }
    }
  }
}
