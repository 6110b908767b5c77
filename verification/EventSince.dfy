/** Which clients can be sent an event from before their subscription. */
module EventSince {
  import opened Events
  import opened EventOrder

  /** Some run from s ends in t. */
  ghost predicate PathComes(s: Path, t: Path) {
    exists acts :: PathRuns(s, acts) && PathAfter(s, acts) == t
  }

  lemma PathStays(s: Path)
    ensures PathComes(s, s)
  {
    assert PathRuns(s, []) && PathAfter(s, []) == s;
  }

  lemma PathGoes(s: Path, a: PathAction, t: Path)
    requires CanAct(s, a) && PathComes(Act(s, a), t)
    ensures PathComes(s, t)
  {
    var acts :| PathRuns(Act(s, a), acts) && PathAfter(Act(s, a), acts) == t;
    assert ([a] + acts)[1..] == acts;
    assert PathRuns(s, [a] + acts) && PathAfter(s, [a] + acts) == t;
  }

  /** The client has received an event whose emission was attempted before it subscribed. */
  ghost predicate ReceivedOlder(s: Path, id: nat) {
    id in s.clients && exists e :: e in s.clients[id].got && e < s.clients[id].joined
  }

  /** No run from s delivers an older event to the client. */
  ghost predicate NeverOlder(s: Path, id: nat) {
    forall t :: PathComes(s, t) ==> !ReceivedOlder(t, id)
  }

  /** Nothing is under way to any client, or nothing will ever be delivered again. */
  predicate Drained(s: Path) {
    s.broker.Halted? || (s.source == [] && !s.broker.Holding? && !s.broker.Sending?)
  }

  // ---------------------------------------------------------------- a drained path delivers newer events only

  /** Whatever the client can be offered from its start on was emitted after it subscribed, or nothing is offered. */
  ghost predicate NewerOnly(s: Path, id: nat) {
    && id in s.clients
    && s.clients[id].start <= |s.accepted| && s.clients[id].joined <= s.emitted
    && ((s.broker.Halted? && s.clients[id].start == s.taken)
        || forall k :: s.clients[id].start <= k < |s.accepted| ==> s.accepted[k] >= s.clients[id].joined)
  }

  lemma StepKeepsNewer(s: Path, a: PathAction, id: nat)
    requires PathOk(s) && CanAct(s, a) && NewerOnly(s, id)
    ensures NewerOnly(Act(s, a), id)
  {
    StepKeepsQueue(s, a);
  }

  lemma NewerReceived(s: Path, id: nat)
    requires PathOk(s) && NewerOnly(s, id)
    ensures !ReceivedOlder(s, id)
  {
    var c := s.clients[id];
    assert StreamOk(s, id);
    forall e | e in c.got ensures e >= c.joined {
      var j :| 0 <= j < |c.got| && c.got[j] == e;
      assert Stream(c)[j] == e;
      var k :| 0 <= k < Front(s, id) - c.start && s.accepted[c.start..Front(s, id)][k] == e;
      assert s.accepted[c.start + k] == e;
    }
  }

  lemma {:induction false} RunKeepsNewer(s: Path, acts: seq<PathAction>, id: nat)
    requires PathOk(s) && PathRuns(s, acts) && NewerOnly(s, id)
    ensures !ReceivedOlder(PathAfter(s, acts), id)
    decreases |acts|
  {
    hide Act, PathOk, NewerOnly;
    if acts == [] {
      NewerReceived(s, id);
    } else {
      StepKeepsNewer(s, acts[0], id);
      StepKeepsPath(s, acts[0]);
      RunKeepsNewer(Act(s, acts[0]), acts[1..], id);
    }
  }

  // ---------------------------------------------------------------- otherwise an older event can still come

  /** The broker has the event in hand and the client is offered it next: the client can receive it. */
  lemma HeldIsDelivered(s: Path, id: nat) returns (t: Path)
    requires s.broker.Holding? && id in s.subscribed && id in s.clients
    requires s.clients[id].buf == [] && s.clients[id].handler.Waiting?
    ensures PathComes(s, t) && id in t.clients && s.broker.e in t.clients[id].got && t.clients[id].joined == s.clients[id].joined
  {
    var s1 := Act(s, BrokerLocks);
    var s2 := Act(s1, BrokerSends(id));
    t := Act(s2, HandlerReceives(id));
    var c := t.clients[id];
    assert c.got[|c.got| - 1] == s.broker.e;
    PathStays(t);
    PathGoes(s2, HandlerReceives(id), t);
    PathGoes(s1, BrokerSends(id), t);
    PathGoes(s, BrokerLocks, t);
  }

  lemma QueuedIsOlder(s: Path, id: nat)
    requires QueueOk(s) && CanAct(s, Subscribe(id)) && !Drained(s)
    ensures !NeverOlder(Act(s, Subscribe(id)), id)
  {
    var s1 := Act(s, Subscribe(id));
    var t;
    if s.broker.Holding? {
      t := HeldIsDelivered(s1, id);
    } else {
      assert s.source[0] == s.accepted[s.taken];
      t := HeldIsDelivered(Act(s1, BrokerReceives), id);
      PathGoes(s1, BrokerReceives, t);
    }
    assert PathComes(s1, t) && ReceivedOlder(t, id);
  }

  // ---------------------------------------------------------------- the theorems

  /**
   A new client is never sent an event from before its subscription, whatever happens next, if and
   only if at its subscription the source queue is empty and the broker has no event in hand, or the
   broker has stopped.
   */
  lemma OlderNeverDeliveredExactly(before: seq<PathAction>, id: nat)
    requires PathRuns(START, before) && CanAct(PathAfter(START, before), Subscribe(id))
    ensures var s := PathAfter(START, before); NeverOlder(Act(s, Subscribe(id)), id) <==> Drained(s)
  {
    RunKeepsPath(START, before);
    var s := PathAfter(START, before);
    var s1 := Act(s, Subscribe(id));
    if Drained(s) {
      StepKeepsPath(s, Subscribe(id));
      forall t | PathComes(s1, t) ensures !ReceivedOlder(t, id) {
        var acts :| PathRuns(s1, acts) && PathAfter(s1, acts) == t;
        RunKeepsNewer(s1, acts, id);
      }
    } else {
      QueuedIsOlder(s, id);
    }
  }

  /** A client can be sent an event that was emitted before it subscribed. */
  lemma OlderEventDelivered()
    ensures exists s :: PathComes(START, s) && ReceivedOlder(s, 0)
  {
    var s1 := Act(START, EmitEvent);
    var s2 := Act(s1, Subscribe(0));
    var s3 := Act(s2, BrokerReceives);
    var t := HeldIsDelivered(s3, 0);
    PathGoes(s2, BrokerReceives, t);
    PathGoes(s1, Subscribe(0), t);
    PathGoes(START, EmitEvent, t);
    assert ReceivedOlder(t, 0);
  }
}
