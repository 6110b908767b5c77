/** Sums over a registry, which do not depend on the order in which it is visited. */
module Totals {
  import opened SessionTypes

  /** The part of a session that the dashboard's history and statistics look at. */
  datatype Info = Info(typ: SessionType, state: SessionState, bytesIn: int, bytesOut: int)

  datatype Direction = Received | Sent

  function Bytes(i: Info, d: Direction): int {
    match d
    case Received => i.bytesIn
    case Sent => i.bytesOut
  }

  /** Bytes of all sessions in the registry, in one direction. */
  ghost function TotalBytes(m: map<SessionId, Info>, d: Direction): int
    decreases |m|
  {
    if m == map[] then 0
    else
      var id :| id in m;
      Bytes(m[id], d) + TotalBytes(m - {id}, d)
  }

  lemma {:induction false} TotalSplits(m: map<SessionId, Info>, id: SessionId, d: Direction)
    requires id in m
    ensures TotalBytes(m, d) == Bytes(m[id], d) + TotalBytes(m - {id}, d)
    decreases |m|
  {
    var first :| id in m && first in m && TotalBytes(m, d) == Bytes(m[first], d) + TotalBytes(m - {first}, d);
    if first != id {
      TotalSplits(m - {first}, id, d);
      TotalSplits(m - {id}, first, d);
      assert m - {first} - {id} == m - {id} - {first};
    }
  }

  lemma TotalUpdated(m: map<SessionId, Info>, id: SessionId, i: Info, d: Direction)
    requires id in m
    ensures TotalBytes(m[id := i], d) == TotalBytes(m, d) - Bytes(m[id], d) + Bytes(i, d)
  {
    TotalSplits(m, id, d);
    TotalSplits(m[id := i], id, d);
    assert m[id := i] - {id} == m - {id};
  }

  lemma TotalExtended(m: map<SessionId, Info>, id: SessionId, i: Info, d: Direction)
    requires id !in m
    ensures TotalBytes(m[id := i], d) == TotalBytes(m, d) + Bytes(i, d)
  {
    TotalSplits(m[id := i], id, d);
    assert m[id := i] - {id} == m;
  }

  /** Bytes in all samples of a history, in one direction. */
  function SampledBytes(samples: seq<HistoryPoint>, d: Direction): int {
    if samples == [] then 0
    else
      var p := samples[|samples| - 1];
      SampledBytes(samples[..|samples| - 1], d) + if d.Received? then p.bytesIn else p.bytesOut
  }

  lemma SampledSnoc(samples: seq<HistoryPoint>, p: HistoryPoint, d: Direction)
    ensures SampledBytes(samples + [p], d) == SampledBytes(samples, d) + if d.Received? then p.bytesIn else p.bytesOut
  {
    assert (samples + [p])[..|samples|] == samples;
  }

  /** Sampled and pending bytes are those of all sessions in the ledger. */
  ghost predicate Conserved(samples: seq<HistoryPoint>, pendingIn: int, pendingOut: int, ledger: map<SessionId, Info>) {
    && SampledBytes(samples, Received) + pendingIn == TotalBytes(ledger, Received)
    && SampledBytes(samples, Sent) + pendingOut == TotalBytes(ledger, Sent)
  }

  lemma ConservedAtStart()
    ensures Conserved([], 0, 0, map[])
  {
  }

  lemma ConservedByRegister(samples: seq<HistoryPoint>, pendingIn: int, pendingOut: int, ledger: map<SessionId, Info>,
                            id: SessionId, typ: SessionType)
    requires Conserved(samples, pendingIn, pendingOut, ledger) && id !in ledger
    ensures Conserved(samples, pendingIn, pendingOut, ledger[id := Info(typ, StateRunning, 0, 0)])
  {
    TotalExtended(ledger, id, Info(typ, StateRunning, 0, 0), Received);
    TotalExtended(ledger, id, Info(typ, StateRunning, 0, 0), Sent);
  }

  lemma ConservedByTraffic(samples: seq<HistoryPoint>, pendingIn: int, pendingOut: int, ledger: map<SessionId, Info>,
                           id: SessionId, i: Info, received: int, sent: int)
    requires Conserved(samples, pendingIn, pendingOut, ledger) && id in ledger
    requires i.bytesIn == ledger[id].bytesIn + received && i.bytesOut == ledger[id].bytesOut + sent
    ensures Conserved(samples, pendingIn + received, pendingOut + sent, ledger[id := i])
  {
    TotalUpdated(ledger, id, i, Received);
    TotalUpdated(ledger, id, i, Sent);
  }

  lemma ConservedBySample(samples: seq<HistoryPoint>, p: HistoryPoint, ledger: map<SessionId, Info>)
    requires Conserved(samples, p.bytesIn, p.bytesOut, ledger)
    ensures Conserved(samples + [p], 0, 0, ledger)
  {
    SampledSnoc(samples, p, Received);
    SampledSnoc(samples, p, Sent);
  }

  /** The active sessions of one type among `ids`. */
  function ActiveIds(m: map<SessionId, Info>, ids: set<SessionId>, typ: SessionType): set<SessionId> {
    set id | id in ids && id in m && m[id].state.IsActive() && m[id].typ == typ
  }

  /** One more session visited is one more active one if it is active. */
  lemma OneMoreActive(m: map<SessionId, Info>, done: set<SessionId>, id: SessionId, typ: SessionType)
    requires id in m && id !in done
    ensures |ActiveIds(m, done + {id}, typ)|
         == |ActiveIds(m, done, typ)| + if m[id].state.IsActive() && m[id].typ == typ then 1 else 0
  {
    if m[id].state.IsActive() && m[id].typ == typ {
      assert ActiveIds(m, done + {id}, typ) == ActiveIds(m, done, typ) + {id};
    } else {
      assert ActiveIds(m, done + {id}, typ) == ActiveIds(m, done, typ);
    }
  }
}
