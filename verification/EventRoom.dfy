/** Events are dropped exactly when a queue is full, and otherwise none is. */
module EventRoom {
  import opened Events
  import opened EventOrder

  // ---------------------------------------------------------------- one send

  /** Below 64 queued events an emission is queued behind them; at 64 it is lost. */
  lemma EmitQueuesExactly(s: Path)
    ensures var s' := Act(s, EmitEvent);
            && s'.emitted == s.emitted + 1 && s'.clients == s.clients
            && (if |s.source| < 64 then s'.source == s.source + [s.emitted] && s'.accepted == s.accepted + [s.emitted]
                else s'.source == s.source && s'.accepted == s.accepted)
  {
  }

  /** Below 16 waiting events a client gets the one it is offered, behind them; at 16 it misses it. */
  lemma SendQueuesExactly(s: Path, id: nat)
    requires CanAct(s, BrokerSends(id))
    ensures var s' := Act(s, BrokerSends(id));
            var c, c' := s.clients[id], s'.clients[id];
            && s'.emitted == s.emitted && s'.accepted == s.accepted && s'.source == s.source
            && c'.got == c.got && c'.start == c.start
            && (if |c.buf| < 16 then c'.buf == c.buf + [s.broker.e] && c'.drops == c.drops
                else c'.buf == c.buf && c'.drops == c.drops + 1)
            && (forall other :: other in s.clients && other != id ==> s'.clients[other] == s.clients[other])
  {
  }

  // ---------------------------------------------------------------- whole runs

  /** How many emissions of a run met a full source queue. */
  function FullEmits(s: Path, acts: seq<PathAction>): nat
    requires PathRuns(s, acts)
    decreases |acts|
  {
    if acts == [] then 0
    else (if acts[0].EmitEvent? && |s.source| >= 64 then 1 else 0) + FullEmits(Act(s, acts[0]), acts[1..])
  }

  predicate MeetsFullBuffer(s: Path, a: PathAction, id: nat) {
    a == BrokerSends(id) && id in s.clients && |s.clients[id].buf| >= 16
  }

  /** How many sends of a run to the client met a full buffer. */
  function FullSends(s: Path, acts: seq<PathAction>, id: nat): nat
    requires PathRuns(s, acts)
    decreases |acts|
  {
    if acts == [] then 0
    else (if MeetsFullBuffer(s, acts[0], id) then 1 else 0) + FullSends(Act(s, acts[0]), acts[1..], id)
  }

  function Missed(s: Path, id: nat): nat {
    if id in s.clients then s.clients[id].drops else 0
  }

  lemma StepCounts(s: Path, a: PathAction, id: nat)
    requires CanAct(s, a)
    ensures var s' := Act(s, a);
            && s'.emitted - |s'.accepted| == s.emitted - |s.accepted| + (if a.EmitEvent? && |s.source| >= 64 then 1 else 0)
            && Missed(s', id) == Missed(s, id) + if MeetsFullBuffer(s, a, id) then 1 else 0
  {
    if a.EmitEvent? {
      EmitQueuesExactly(s);
    } else if a.BrokerSends? {
      SendQueuesExactly(s, a.id);
    }
  }

  lemma {:induction false} RunCounts(s: Path, acts: seq<PathAction>, id: nat)
    requires PathRuns(s, acts)
    ensures var t := PathAfter(s, acts);
            && t.emitted - |t.accepted| == s.emitted - |s.accepted| + FullEmits(s, acts)
            && Missed(t, id) == Missed(s, id) + FullSends(s, acts, id)
    decreases |acts|
  {
    hide Act, Missed, MeetsFullBuffer;
    if acts != [] {
      StepCounts(s, acts[0], id);
      RunCounts(Act(s, acts[0]), acts[1..], id);
    }
  }

  // ---------------------------------------------------------------- the theorems

  /** In every run the events lost are exactly those whose emission or send met a full queue. */
  lemma LossesExactly(acts: seq<PathAction>, id: nat)
    requires PathRuns(START, acts) && id in PathAfter(START, acts).clients
    ensures var s := PathAfter(START, acts);
            var c := s.clients[id];
            && s.emitted == |s.accepted| + FullEmits(START, acts)
            && c.drops == FullSends(START, acts, id)
            && (id in s.subscribed ==> |c.got| + |c.buf| + FullSends(START, acts, id) == Front(s, id) - c.start)
  {
    hide Act;
    RunCounts(START, acts, id);
    DeliveredInOrder(acts, id);
  }

  /**
   If in a run no emission met 64 queued events and no send to the client met 16 waiting ones, the
   client has, or has waiting, every event that was fanned out since its start, none missing.
   */
  lemma CompleteUnlessFull(acts: seq<PathAction>, id: nat)
    requires PathRuns(START, acts) && FullEmits(START, acts) == 0 && FullSends(START, acts, id) == 0
    requires var s := PathAfter(START, acts); id in s.subscribed && id in s.clients
    ensures var s := PathAfter(START, acts);
            var c := s.clients[id];
            && |s.accepted| == s.emitted && c.drops == 0
            && c.start <= c.joined && c.start <= Front(s, id)
            && c.got + c.buf == seq(Front(s, id) - c.start, k requires 0 <= k => c.start + k)
  {
    hide Act;
    LossesExactly(acts, id);
    CompleteIfNothingDropped(acts, id);
  }
}
