/** The manager's traffic counters and history ring buffer, updated in place. */
module History {
  import opened SessionTypes
  import opened Totals

  const HISTORY_LENGTH: nat := 60

  const ZERO_POINT := HistoryPoint(0, 0, 0, 0)

  function ZeroPoints(n: nat): seq<HistoryPoint> {
    seq(n, _ => ZERO_POINT)
  }

  /** The last sixty of sixty zero points followed by all samples, oldest first. */
  function Window(samples: seq<HistoryPoint>): (w: seq<HistoryPoint>)
    ensures |w| == HISTORY_LENGTH
  {
    (ZeroPoints(HISTORY_LENGTH) + samples)[|samples|..]
  }

  /** Position k of the window is the sample recorded 60 - k calls ago, or zero if there were fewer. */
  lemma WindowAt(samples: seq<HistoryPoint>, k: nat)
    requires k < HISTORY_LENGTH
    ensures Window(samples)[k]
         == if |samples| + k >= HISTORY_LENGTH then samples[|samples| + k - HISTORY_LENGTH] else ZERO_POINT
  {
  }

  lemma WindowShifts(samples: seq<HistoryPoint>, p: HistoryPoint)
    ensures Window(samples + [p]) == Window(samples)[1..] + [p]
  {
  }

  /** Overwriting the oldest slot of a ring and moving its index on shifts its content by one. */
  lemma RingShifts(ring: seq<HistoryPoint>, i: nat, p: HistoryPoint)
    requires |ring| == HISTORY_LENGTH && i < HISTORY_LENGTH
    ensures var j := (i + 1) % HISTORY_LENGTH;
            var ring' := ring[i := p];
            ring'[j..] + ring'[..j] == (ring[i..] + ring[..i])[1..] + [p]
  {
    var ring' := ring[i := p];
    if i + 1 < HISTORY_LENGTH {
      assert ring'[i + 1..] == ring[i + 1..];
      assert ring'[..i + 1] == ring[..i] + [p];
      assert (ring[i..] + ring[..i])[1..] == ring[i + 1..] + ring[..i];
    } else {
      assert ring' == ring[..i] + [p];
      assert (ring[i..] + ring[..i])[1..] == ring[..i];
    }
  }

  class SessionManager {
    var sessions: map<SessionId, Info>
    const history: array<HistoryPoint>
    var historyIndex: nat
    var trafficIn: int
    var trafficOut: int
    /** Every sample ever recorded, and every session ever registered with what it last counted. */
    ghost var samples: seq<HistoryPoint>
    ghost var ledger: map<SessionId, Info>

    ghost predicate Valid()
      reads this, history
    {
      RingValid() && LedgerValid()
    }

    /** Read from the index on, the ring buffer holds the window on all samples. */
    ghost predicate RingValid()
      reads this`historyIndex, this`samples, history
    {
      && history.Length == HISTORY_LENGTH && historyIndex < HISTORY_LENGTH
      && history[historyIndex..] + history[..historyIndex] == Window(samples)
    }

    /** No byte is lost or counted twice: sampled and pending bytes are those of all sessions ever registered. */
    ghost predicate LedgerValid()
      reads this`sessions, this`ledger, this`samples, this`trafficIn, this`trafficOut
    {
      && sessions.Keys <= ledger.Keys
      && (forall id :: id in sessions ==> ledger[id].bytesIn == sessions[id].bytesIn && ledger[id].bytesOut == sessions[id].bytesOut)
      && Conserved(samples, trafficIn, trafficOut, ledger)
    }

    constructor ()
      ensures Valid() && sessions == map[] && samples == [] && ledger == map[]
    {
      sessions, historyIndex, trafficIn, trafficOut := map[], 0, 0, 0;
      samples, ledger := [], map[];
      history := new HistoryPoint[HISTORY_LENGTH](_ => ZERO_POINT);
      new;
      ConservedAtStart();
      assert history[..] == ZeroPoints(HISTORY_LENGTH) == Window([]);
    }

    /** A session enters the registry under an id never used before; it has no traffic yet. */
    method Register(id: SessionId, typ: SessionType)
      requires Valid() && id !in ledger
      modifies this`sessions, this`ledger
      ensures Valid()
      ensures sessions == old(sessions)[id := Info(typ, StateRunning, 0, 0)]
      ensures ledger == old(ledger)[id := Info(typ, StateRunning, 0, 0)]
    {
      sessions := sessions[id := Info(typ, StateRunning, 0, 0)];
      ledger := ledger[id := Info(typ, StateRunning, 0, 0)];
      ConservedByRegister(samples, trafficIn, trafficOut, old(ledger), id, typ);
    }

    /** Any step of the lifecycle that changes a registered session's state. */
    method SetState(id: SessionId, state: SessionState)
      requires Valid() && id in sessions
      modifies this`sessions
      ensures Valid() && sessions == old(sessions)[id := old(sessions)[id].(state := state)]
    {
      sessions := sessions[id := sessions[id].(state := state)];
    }

    method RemoveSession(id: SessionId)
      requires Valid()
      modifies this`sessions
      ensures Valid() && sessions == old(sessions) - {id}
    {
      sessions := sessions - {id};
    }

    method AddTraffic(id: SessionId, received: int, sent: int)
      requires Valid()
      modifies this`sessions, this`trafficIn, this`trafficOut, this`ledger
      ensures Valid()
      ensures id !in old(sessions) ==> sessions == old(sessions) && ledger == old(ledger)
                                       && trafficIn == old(trafficIn) && trafficOut == old(trafficOut)
      ensures id in old(sessions) ==>
                var before := old(sessions)[id];
                && sessions == old(sessions)[id := before.(bytesIn := before.bytesIn + received, bytesOut := before.bytesOut + sent)]
                && ledger == old(ledger)[id := sessions[id]]
                && trafficIn == old(trafficIn) + received && trafficOut == old(trafficOut) + sent
    {
      if id !in sessions {
        return;
      }
      var s := sessions[id];
      sessions := sessions[id := s.(bytesIn := s.bytesIn + received, bytesOut := s.bytesOut + sent)];
      trafficIn := trafficIn + received;
      trafficOut := trafficOut + sent;
      ledger := ledger[id := sessions[id]];
      ConservedByTraffic(samples, old(trafficIn), old(trafficOut), old(ledger), id, sessions[id], received, sent);
    }

    /** The active sessions by type, in whatever order they are visited. */
    method CountActive() returns (shells: int, tunnels: int)
      ensures shells == |ActiveIds(sessions, sessions.Keys, TypeShell)|
      ensures tunnels == |ActiveIds(sessions, sessions.Keys, TypePortForward)|
    {
      shells, tunnels := 0, 0;
      var todo := sessions.Keys;
      while todo != {}
        invariant todo <= sessions.Keys
        invariant shells == |ActiveIds(sessions, sessions.Keys - todo, TypeShell)|
        invariant tunnels == |ActiveIds(sessions, sessions.Keys - todo, TypePortForward)|
        decreases |todo|
      {
        var id :| id in todo;
        OneMoreActive(sessions, sessions.Keys - todo, id, TypeShell);
        OneMoreActive(sessions, sessions.Keys - todo, id, TypePortForward);
        assert sessions.Keys - (todo - {id}) == sessions.Keys - todo + {id};
        if sessions[id].state.IsActive() {
          match sessions[id].typ
          case TypeShell => shells := shells + 1;
          case TypePortForward => tunnels := tunnels + 1;
        }
        todo := todo - {id};
      }
      assert sessions.Keys - todo == sessions.Keys;
    }

    /** Samples the active sessions and the traffic since the last sample into the ring buffer. */
    method RecordHistoryPoint()
      requires Valid()
      modifies this`historyIndex, this`trafficIn, this`trafficOut, this`samples, history
      ensures Valid()
      ensures trafficIn == 0 && trafficOut == 0
      ensures samples == old(samples)
                         + [HistoryPoint(|ActiveIds(sessions, sessions.Keys, TypeShell)|,
                                         |ActiveIds(sessions, sessions.Keys, TypePortForward)|,
                                         old(trafficIn), old(trafficOut))]
    {
      var shells, tunnels := CountActive();
      var p := HistoryPoint(shells, tunnels, trafficIn, trafficOut);
      ConservedBySample(samples, p, ledger);
      trafficIn, trafficOut := 0, 0;
      Push(p);
    }

    method Push(p: HistoryPoint)
      requires RingValid()
      modifies this`historyIndex, this`samples, history
      ensures RingValid() && samples == old(samples) + [p]
    {
      WindowShifts(samples, p);
      RingShifts(history[..], historyIndex, p);
      samples := samples + [p];
      ghost var before := history[..];
      history[historyIndex] := p;
      assert history[..] == before[historyIndex := p];
      historyIndex := (historyIndex + 1) % history.Length;
    }

    /** A copy of the ring buffer, oldest first: the last sixty samples, preceded by zeros if there were fewer. */
    method GetHistory() returns (points: seq<HistoryPoint>)
      requires Valid()
      ensures |points| == 60
      ensures forall k :: 0 <= k < 60 ==>
                points[k] == if |samples| + k >= 60 then samples[|samples| + k - 60] else HistoryPoint(0, 0, 0, 0)
    {
      forall k | 0 <= k < 60
        ensures Window(samples)[k] == if |samples| + k >= 60 then samples[|samples| + k - 60] else HistoryPoint(0, 0, 0, 0)
      {
        WindowAt(samples, k);
      }
      points := history[historyIndex..] + history[..historyIndex];
    }
  }
}
