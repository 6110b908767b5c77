/** What each client of the event path gets, and that nobody is left with a stale view. */
module EventOrder {
  import opened Sequences
  import opened Events

  /** Position in the accepted events up to which the client has been offered everything. */
  function Front(s: Path, id: nat): nat {
    if (s.broker.Holding? || (s.broker.Sending? && id in s.broker.todo)) && s.taken > 0 then s.taken - 1 else s.taken
  }

  function Stream(c: Client): seq<nat> {
    c.got + c.buf
  }

  ghost predicate QueueOk(s: Path) {
    && Increasing(s.accepted)
    && (forall k :: 0 <= k < |s.accepted| ==> s.accepted[k] < s.emitted)
    && s.taken <= |s.accepted|
    && s.source == s.accepted[s.taken..]
    && (s.broker.Holding? || s.broker.Sending? ==> s.taken > 0 && s.broker.e == s.accepted[s.taken - 1])
  }

  /** The client's stream is an in-order part of what was accepted from its start on. */
  ghost predicate StreamOk(s: Path, id: nat)
    requires QueueOk(s) && id in s.clients
  {
    var c := s.clients[id];
    && c.start <= Front(s, id)
    && Increasing(Stream(c))
    && (forall j :: 0 <= j < |Stream(c)| ==> Stream(c)[j] in s.accepted[c.start..Front(s, id)])
    && (forall k :: 0 <= k < c.start ==> s.accepted[k] < c.joined)
    && (id in s.subscribed ==> |Stream(c)| + c.drops == Front(s, id) - c.start)
    && (id in s.subscribed && c.drops == 0 ==> Stream(c) == s.accepted[c.start..Front(s, id)])
  }

  ghost predicate StreamsOk(s: Path) {
    QueueOk(s) && forall id :: id in s.clients ==> StreamOk(s, id)
  }

  lemma EmitKeepsQueue(s: Path)
    requires QueueOk(s)
    ensures QueueOk(Act(s, EmitEvent)) && s.accepted <= Act(s, EmitEvent).accepted
  {
    assert (s.accepted + [s.emitted])[s.taken..] == s.accepted[s.taken..] + [s.emitted];
  }

  lemma ReceiveKeepsQueue(s: Path)
    requires QueueOk(s) && CanAct(s, BrokerReceives)
    ensures QueueOk(Act(s, BrokerReceives)) && Act(s, BrokerReceives).accepted == s.accepted
  {
    assert s.source[0] == s.accepted[s.taken];
    assert s.source[1..] == s.accepted[s.taken + 1..];
  }

  predicate InHand(b: BrokerPc) {
    b.Holding? || b.Sending?
  }

  /** Every other step leaves the queue alone, and the broker's hand unless it lets go of it. */
  lemma OtherKeepsQueue(s: Path, a: PathAction)
    requires CanAct(s, a) && !a.EmitEvent? && !a.BrokerReceives?
    ensures var s' := Act(s, a);
            && s'.accepted == s.accepted && s'.emitted == s.emitted && s'.taken == s.taken && s'.source == s.source
            && (InHand(s'.broker) ==> InHand(s.broker) && s'.broker.e == s.broker.e)
  {
  }

  lemma StepKeepsQueue(s: Path, a: PathAction)
    requires QueueOk(s) && CanAct(s, a)
    ensures QueueOk(Act(s, a))
    ensures s.accepted <= Act(s, a).accepted
  {
    hide Act;
    if a.EmitEvent? {
      EmitKeepsQueue(s);
    } else if a.BrokerReceives? {
      ReceiveKeepsQueue(s);
    } else {
      OtherKeepsQueue(s, a);
    }
  }

  /** A client that the step does not touch. */
  lemma StreamStands(s: Path, s': Path, id: nat)
    requires QueueOk(s) && QueueOk(s') && s.accepted <= s'.accepted
    requires id in s.clients && id in s'.clients && StreamOk(s, id)
    requires s'.clients[id].start == s.clients[id].start && s'.clients[id].joined == s.clients[id].joined
    requires Stream(s'.clients[id]) == Stream(s.clients[id]) && s'.clients[id].drops == s.clients[id].drops
    requires Front(s', id) >= Front(s, id)
    requires id in s'.subscribed ==> id in s.subscribed && Front(s', id) == Front(s, id)
    ensures StreamOk(s', id)
  {
    var c := s.clients[id];
    assert s'.accepted[c.start..Front(s, id)] == s.accepted[c.start..Front(s, id)];
    forall x | x in s.accepted[c.start..Front(s, id)] ensures x in s'.accepted[c.start..Front(s', id)] {
      var k :| 0 <= k < Front(s, id) - c.start && s.accepted[c.start..Front(s, id)][k] == x;
      assert s'.accepted[c.start..Front(s', id)][k] == x;
    }
  }

  /** The client that is offered an event now: its stream grows by it, or it misses it. */
  lemma StreamGrows(s: Path, id: nat)
    requires StreamsOk(s) && ChannelsOk(s) && CanAct(s, BrokerSends(id))
    ensures var s' := Act(s, BrokerSends(id)); QueueOk(s') && StreamOk(s', id)
  {
    var s' := Act(s, BrokerSends(id));
    StepKeepsQueue(s, BrokerSends(id));
    var c, c' := s.clients[id], s'.clients[id];
    assert StreamOk(s, id);
    var before, now := s.accepted[c.start..s.taken - 1], s.accepted[c.start..s.taken];
    assert now == before + [s.broker.e];
    forall j | 0 <= j < |Stream(c)| ensures Stream(c)[j] in now && Stream(c)[j] < s.broker.e {
      var k :| 0 <= k < |before| && before[k] == Stream(c)[j];
      assert now[k] == before[k];
      assert s.accepted[c.start + k] < s.accepted[s.taken - 1];
    }
    if c'.buf != c.buf {
      assert Stream(c') == Stream(c) + [s.broker.e];
      assert now[|before|] == s.broker.e;
    }
  }

  lemma ClientStands(s: Path, a: PathAction, id: nat)
    requires CanAct(s, a) && id in s.clients && a != BrokerSends(id)
    ensures var s' := Act(s, a);
            && id in s'.clients
            && s'.clients[id].start == s.clients[id].start && s'.clients[id].joined == s.clients[id].joined
            && Stream(s'.clients[id]) == Stream(s.clients[id]) && s'.clients[id].drops == s.clients[id].drops
            && Front(s', id) >= Front(s, id)
            && (ChannelsOk(s) && id in s'.subscribed ==> id in s.subscribed && Front(s', id) == Front(s, id))
  {
    if a == HandlerReceives(id) {
      var c := s.clients[id];
      assert c.got + c.buf == c.got + [c.buf[0]] + c.buf[1..];
    }
  }

  lemma StreamKept(s: Path, a: PathAction, id: nat)
    requires StreamsOk(s) && ChannelsOk(s) && CanAct(s, a)
    requires id in s.clients && a != BrokerSends(id)
    ensures QueueOk(Act(s, a)) && StreamOk(Act(s, a), id)
  {
    hide Act;
    StepKeepsQueue(s, a);
    assert StreamOk(s, id);
    ClientStands(s, a, id);
    StreamStands(s, Act(s, a), id);
  }

  lemma StreamBegins(s: Path, id: nat)
    requires StreamsOk(s) && ChannelsOk(s) && CanAct(s, Subscribe(id))
    ensures var s' := Act(s, Subscribe(id)); QueueOk(s') && StreamOk(s', id)
  {
    StepKeepsQueue(s, Subscribe(id));
  }

  lemma StepKeepsStreams(s: Path, a: PathAction)
    requires StreamsOk(s) && ChannelsOk(s) && CanAct(s, a)
    ensures StreamsOk(Act(s, a))
  {
    StepKeepsQueue(s, a);
    forall id | id in Act(s, a).clients ensures StreamOk(Act(s, a), id) {
      if a == BrokerSends(id) {
        StreamGrows(s, id);
      } else if id in s.clients {
        StreamKept(s, a, id);
      } else {
        StreamBegins(s, id);
      }
    }
  }

  ghost predicate PathOk(s: Path) {
    ChannelsOk(s) && NoRefreshLost(s) && StreamsOk(s)
  }

  lemma StepKeepsPath(s: Path, a: PathAction)
    requires PathOk(s) && CanAct(s, a)
    ensures PathOk(Act(s, a))
  {
    hide Act, ChannelsOk, NoRefreshLost, StreamsOk;
    StepKeepsChannels(s, a);
    StepKeepsRefresh(s, a);
    StepKeepsStreams(s, a);
  }

  lemma {:induction false} RunKeepsPath(s: Path, acts: seq<PathAction>)
    requires PathOk(s) && PathRuns(s, acts)
    ensures PathOk(PathAfter(s, acts))
    decreases |acts|
  {
    if acts != [] {
      StepKeepsPath(s, acts[0]);
      RunKeepsPath(Act(s, acts[0]), acts[1..]);
    }
  }

  // ---------------------------------------------------------------- the theorems

  /** Nothing is ever sent on a closed channel, no channel is closed twice, and no queue outgrows its capacity. */
  lemma ChannelsSafe(acts: seq<PathAction>, id: nat)
    requires PathRuns(START, acts)
    ensures var s := PathAfter(START, acts);
            && !s.panicked && |s.source| <= 64
            && (id in s.clients ==> |s.clients[id].buf| <= 16)
  {
    RunKeepsPath(START, acts);
  }

  /**
   While the broker runs, a served client whose last snapshot predates an emission attempted since
   it subscribed has an event coming that will make its handler take a newer one, however many
   events were dropped.
   */
  lemma NoLostRefresh(acts: seq<PathAction>, id: nat)
    requires PathRuns(START, acts)
    requires var s := PathAfter(START, acts); !s.broker.Halted? && Served(s, id) && Stale(s, id)
    ensures RefreshPending(PathAfter(START, acts), id)
  {
    RunKeepsPath(START, acts);
  }

  /**
   A client receives, in order of emission, only accepted events, none of those the broker had fanned
   out before it subscribed; what it got, what waits for it and what it missed add up to what was
   fanned out since.
   */
  lemma DeliveredInOrder(acts: seq<PathAction>, id: nat)
    requires PathRuns(START, acts) && id in PathAfter(START, acts).clients
    ensures var s := PathAfter(START, acts);
            var c := s.clients[id];
            && Increasing(s.accepted) && Increasing(c.got)
            && c.start <= Front(s, id) <= |s.accepted|
            && (forall x :: x in c.got ==> x in s.accepted[c.start..Front(s, id)])
            && (id in s.subscribed ==> |c.got| + |c.buf| + c.drops == Front(s, id) - c.start)
  {
    RunKeepsPath(START, acts);
    var s := PathAfter(START, acts);
    var c := s.clients[id];
    assert StreamOk(s, id);
    forall j | 0 <= j < |c.got| ensures Stream(c)[j] == c.got[j] {}
  }

  /** If neither queue dropped anything, a client has every event emitted since it subscribed that was fanned out, in order. */
  lemma CompleteIfNothingDropped(acts: seq<PathAction>, id: nat)
    requires PathRuns(START, acts)
    requires var s := PathAfter(START, acts);
             id in s.subscribed && id in s.clients && s.clients[id].drops == 0 && |s.accepted| == s.emitted
    ensures var s := PathAfter(START, acts);
            var c := s.clients[id];
            && c.start <= c.joined
            && c.start <= Front(s, id)
            && c.got + c.buf == seq(Front(s, id) - c.start, k requires 0 <= k => c.start + k)
  {
    RunKeepsPath(START, acts);
    var s := PathAfter(START, acts);
    var c := s.clients[id];
    assert StreamOk(s, id);
    forall k | 0 <= k < |s.accepted| ensures s.accepted[k] == k {
      IncreasingDense(s.accepted, s.emitted, k);
    }
    if c.start > 0 {
      assert s.accepted[c.start - 1] < c.joined;
    }
    assert Stream(c) == s.accepted[c.start..Front(s, id)];
  }
}
