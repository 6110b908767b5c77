/** The broker of internal/web/sse.go as its methods update it, and how its steps in the event path add up to them. */
module Broker {
  import opened Events
  import opened EventSince

  /** A client channel is a number; the map holds what waits in the channels of subscribed clients. */
  class SSEBroker {
    var clients: map<nat, seq<nat>>
    var closed: set<nat>

    ghost predicate Valid()
      reads this
    {
      && clients.Keys !! closed
      && forall ch :: ch in clients ==> |clients[ch]| <= CLIENT_CAPACITY
    }

    constructor ()
      ensures Valid() && clients == map[] && closed == {}
    {
      clients, closed := map[], {};
    }

    /** `ch` is a newly made channel. */
    method Subscribe(ch: nat)
      requires Valid() && ch !in clients && ch !in closed
      modifies this
      ensures Valid() && clients == old(clients)[ch := []] && closed == old(closed)
    {
      clients := clients[ch := []];
    }

    /** The locked part of Unsubscribe: from here on no event is offered to the client. */
    method Remove(ch: nat)
      requires Valid()
      modifies this`clients
      ensures Valid() && clients == old(clients) - {ch}
    {
      clients := clients - {ch};
    }

    /** Closing a channel the broker may still send on, or closing it twice, would panic. */
    method Close(ch: nat)
      requires Valid() && ch !in clients && ch !in closed
      modifies this`closed
      ensures Valid() && closed == old(closed) + {ch}
    {
      closed := closed + {ch};
    }

    /** There is one Unsubscribe per channel. */
    method Unsubscribe(ch: nat)
      requires Valid() && ch !in closed
      modifies this
      ensures Valid() && clients == old(clients) - {ch} && closed == old(closed) + {ch}
    {
      Remove(ch);
      Close(ch);
    }

    /** One pass of run with the lock held, in any order: whoever has fewer than 16 events waiting gets this one behind them. */
    method FanOut(evt: nat)
      requires Valid()
      modifies this
      ensures Valid() && closed == old(closed)
      ensures clients.Keys == old(clients).Keys
      ensures forall ch :: ch in clients ==>
                clients[ch] == if |old(clients)[ch]| < 16 then old(clients)[ch] + [evt] else old(clients)[ch]
    {
      var todo := clients.Keys;
      while todo != {}
        invariant Valid() && closed == old(closed)
        invariant clients.Keys == old(clients).Keys && todo <= clients.Keys
        invariant forall ch :: ch in clients ==>
                    clients[ch] == if ch !in todo && |old(clients)[ch]| < 16 then old(clients)[ch] + [evt] else old(clients)[ch]
        decreases |todo|
      {
        var ch :| ch in todo;
        if |clients[ch]| < CLIENT_CAPACITY {
          clients := clients[ch := clients[ch] + [evt]];
        }
        todo := todo - {ch};
      }
    }
  }

  /** What waits in the channels of subscribed clients. */
  ghost function Waiting(s: Path): map<nat, seq<nat>>
    requires s.subscribed <= s.clients.Keys
  {
    map id | id in s.subscribed :: s.clients[id].buf
  }

  /** The send steps still to do give the event to all clients of `todo` that have room. */
  lemma {:induction false} SendsAddUp(s: Path) returns (t: Path)
    requires ChannelsOk(s) && s.broker.Sending?
    ensures PathComes(s, t) && t.broker.Receiving?
    ensures t.subscribed == s.subscribed && t.clients.Keys == s.clients.Keys && t.source == s.source
    ensures forall id :: id in s.subscribed ==>
              t.clients[id].buf
              == if id in s.broker.todo && |s.clients[id].buf| < 16 then s.clients[id].buf + [s.broker.e] else s.clients[id].buf
    decreases |s.broker.todo|
  {
    if s.broker.todo == {} {
      t := Act(s, BrokerUnlocks);
      PathStays(t);
      PathGoes(s, BrokerUnlocks, t);
    } else {
      var id :| id in s.broker.todo;
      StepKeepsChannels(s, BrokerSends(id));
      t := SendsAddUp(Act(s, BrokerSends(id)));
      PathGoes(s, BrokerSends(id), t);
    }
  }

  /** From any state in which the broker has an event in hand it can complete exactly the fan-out of that event. */
  lemma FanOutCompletes(s: Path)
    requires ChannelsOk(s) && s.broker.Holding?
    ensures exists t :: PathComes(s, t) && t.broker.Receiving? && t.subscribed == s.subscribed && t.subscribed <= t.clients.Keys
              && Waiting(t) == map id | id in Waiting(s) ::
                                 if |Waiting(s)[id]| < 16 then Waiting(s)[id] + [s.broker.e] else Waiting(s)[id]
  {
    StepKeepsChannels(s, BrokerLocks);
    var t := SendsAddUp(Act(s, BrokerLocks));
    PathGoes(s, BrokerLocks, t);
  }
}
