/**
 Left to themselves, the broker and the handlers come to rest after a bounded number of steps, and
 then every client's view is up to date.
 */
module EventDrain {
  import opened Events
  import opened EventOrder

  /** A step of the broker or of a handler; nobody emits, joins or leaves, and the broker is not stopped. */
  predicate Internal(a: PathAction) {
    a.BrokerReceives? || a.BrokerLocks? || a.BrokerSends? || a.BrokerUnlocks? || a.HandlerReceives? || a.HandlerSnapshots?
  }

  /** Steps a client still causes: one receive and one snapshot for each event in its channel. */
  function ClientWork(c: Client): nat {
    2 * |c.buf| + if c.handler.Rendering? then 1 else 0
  }

  ghost function ClientsWork(clients: map<nat, Client>): nat
    decreases |clients|
  {
    if clients == map[] then 0
    else
      var id :| id in clients;
      ClientWork(clients[id]) + ClientsWork(clients - {id})
  }

  lemma {:induction false} WorkSplits(clients: map<nat, Client>, id: nat)
    requires id in clients
    ensures ClientsWork(clients) == ClientWork(clients[id]) + ClientsWork(clients - {id})
    decreases |clients|
  {
    var first :| id in clients && first in clients && ClientsWork(clients) == ClientWork(clients[first]) + ClientsWork(clients - {first});
    if first != id {
      WorkSplits(clients - {first}, id);
      WorkSplits(clients - {id}, first);
      assert clients - {first} - {id} == clients - {id} - {first};
    }
  }

  lemma WorkUpdated(clients: map<nat, Client>, id: nat, c: Client)
    requires id in clients
    ensures ClientsWork(clients[id := c]) + ClientWork(clients[id]) == ClientsWork(clients) + ClientWork(c)
  {
    WorkSplits(clients, id);
    WorkSplits(clients[id := c], id);
    assert clients[id := c] - {id} == clients - {id};
  }

  /** Steps the broker still causes. Each event offered to a client costs the offer, a receive and a snapshot. */
  function BrokerWork(b: BrokerPc, subscribed: nat): nat {
    match b
    case Receiving => 0
    case Holding(_) => 2 + 3 * subscribed
    case Sending(_, todo) => 1 + 3 * |todo|
    case Halted => 0
  }

  function SourceWork(queued: nat, subscribed: nat): nat {
    queued * (3 + 3 * subscribed)
  }

  ghost function Work(s: Path): nat {
    SourceWork(|s.source|, |s.subscribed|) + BrokerWork(s.broker, |s.subscribed|) + ClientsWork(s.clients)
  }

  lemma InternalStepWorks(s: Path, a: PathAction)
    requires CanAct(s, a) && Internal(a)
    ensures Work(Act(s, a)) < Work(s)
    ensures Act(s, a).emitted == s.emitted && Act(s, a).subscribed == s.subscribed
  {
    var s' := Act(s, a);
    match a
    case BrokerReceives =>
      assert |s.source| * (3 + 3 * |s.subscribed|) == (|s.source| - 1) * (3 + 3 * |s.subscribed|) + (3 + 3 * |s.subscribed|);
    case BrokerSends(id) => WorkUpdated(s.clients, id, s'.clients[id]);
    case HandlerReceives(id) => WorkUpdated(s.clients, id, s'.clients[id]);
    case HandlerSnapshots(id) => WorkUpdated(s.clients, id, s'.clients[id]);
    case _ =>
  }

  predicate AllInternal(acts: seq<PathAction>) {
    forall k :: 0 <= k < |acts| ==> Internal(acts[k])
  }

  /** No undisturbed run of the broker and the handlers is longer than the work at hand. */
  lemma {:induction false} DrainBounded(s: Path, acts: seq<PathAction>)
    requires PathRuns(s, acts) && AllInternal(acts)
    ensures |acts| + Work(PathAfter(s, acts)) <= Work(s)
    decreases |acts|
  {
    if acts != [] {
      InternalStepWorks(s, acts[0]);
      DrainBounded(Act(s, acts[0]), acts[1..]);
    }
  }

  /** Neither the broker nor a handler can take a step. */
  ghost predicate AtRest(s: Path) {
    forall a :: Internal(a) ==> !CanAct(s, a)
  }

  /** When the running broker and the handlers are at rest, every served client has seen the latest emission. */
  lemma AtRestAllFresh(acts: seq<PathAction>, id: nat)
    requires PathRuns(START, acts)
    requires var s := PathAfter(START, acts); AtRest(s) && !s.broker.Halted? && Served(s, id)
    ensures !Stale(PathAfter(START, acts), id)
  {
    var s := PathAfter(START, acts);
    RunKeepsPath(START, acts);
    if Stale(s, id) {
      assert RefreshPending(s, id);
      assert !CanAct(s, BrokerReceives) && !CanAct(s, BrokerLocks) && !CanAct(s, BrokerUnlocks);
      assert !CanAct(s, HandlerReceives(id)) && !CanAct(s, HandlerSnapshots(id));
      if s.broker.Sending? {
        var next :| next in s.broker.todo;
        assert CanAct(s, BrokerSends(next));
      }
    }
  }
}
