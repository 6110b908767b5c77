/** Removals, and sessions whose process belongs to somebody else. */
module Outsiders {
  import opened SessionTypes
  import opened Lifecycle
  import opened Tallies
  import opened Invariant
  import opened Preservation

  // ---------------------------------------------------------------- removal

  /** No step registers a session again, and only a removal unregisters it. */
  lemma ThreadRegisters(c: Policy, sh: Shared, t: Thread, choice: bool)
    ensures AdvanceThread(c, sh, t, choice).sh.sess.registered == (sh.sess.registered && t != Remover)
  {
    match t
    case Loop(pc) => LoopRegisters(c, sh, pc, choice);
    case Prober(pc) => ProberRegisters(c, sh, pc, choice);
    case _ =>
  }

  lemma LoopRegisters(c: Policy, sh: Shared, pc: LoopPc, choice: bool)
    ensures AdvanceLoop(c, sh, pc, choice).sh.sess.registered == sh.sess.registered
  {
  }

  lemma ProberRegisters(c: Policy, sh: Shared, pc: ProberPc, choice: bool)
    ensures AdvanceProber(c, sh, pc, choice).sh.sess.registered == sh.sess.registered
  {
    hide ProbeEvents;
  }

  lemma {:induction false} StaysRemoved(c: Policy, s: Sys, acts: seq<Action>)
    requires !s.sh.sess.registered && Runs(c, s, acts)
    ensures !After(c, s, acts).sh.sess.registered
    decreases |acts|
  {
    hide AdvanceThread;
    if acts != [] {
      if acts[0].Advance? {
        ThreadRegisters(c, s.sh, s.threads[acts[0].i], acts[0].choice);
      }
      StaysRemoved(c, Step(c, s, acts[0]), acts[1..]);
    }
  }

  /** A step takes the session out of the registry if and only if it is a removal's, and then for good. */
  lemma RemovalIsFinal(c: Policy, t: Sys, a: Action, acts: seq<Action>)
    requires t.sh.sess.registered && Enabled(t, a) && Runs(c, Step(c, t, a), acts)
    ensures !Step(c, t, a).sh.sess.registered <==> a.Advance? && t.threads[a.i] == Remover
    ensures a.Advance? && t.threads[a.i] == Remover ==> !After(c, Step(c, t, a), acts).sh.sess.registered
  {
    hide AdvanceThread;
    if a.Advance? {
      ThreadRegisters(c, t.sh, t.threads[a.i], a.choice);
    }
    if !Step(c, t, a).sh.sess.registered {
      StaysRemoved(c, Step(c, t, a), acts);
    }
  }

  // ---------------------------------------------------------------- the death of an external process

  /** The goroutine that polls for an external process, until it has its answer. */
  predicate StillPolls(acts: seq<Action>) {
    forall k :: 0 <= k < |acts| ==> !(acts[k].Advance? && acts[k].i == 1)
  }

  lemma {:induction false} PollerWaits(c: Policy, s: Sys, acts: seq<Action>)
    requires |s.threads| > 1 && Runs(c, s, acts) && StillPolls(acts)
    ensures |After(c, s, acts).threads| > 1 && After(c, s, acts).threads[1] == s.threads[1]
    decreases |acts|
  {
    hide AdvanceThread;
    if acts != [] {
      PollerWaits(c, Step(c, s, acts[0]), acts[1..]);
    }
  }

  /** What finding the process dead makes of the session. */
  lemma DeathStep(c: Policy, t: Sys, i: nat, choice: bool)
    requires i < |t.threads| && t.threads[i] == Poller(RecordDeath)
    ensures var t' := Step(c, t, Advance(i, choice));
            && (t.sh.sess.state.StateRunning? ==> t'.sh.sess == t.sh.sess.(state := StateStopped))
            && (!t.sh.sess.state.StateRunning? && !t.sh.sess.state.StateStarting? ==> t'.sh.sess == t.sh.sess)
            && Plays(OwesEmit, t'.threads[i])
  {
  }

  /**
   An external session registered with a process checker has a poller, and that goes on until it has its
   answer. The death of the process then takes a Running session to Stopped, and no other state is touched.
   */
  lemma ExternalDeath(c: Policy, opts: SessionOpts, acts: seq<Action>, choice: bool)
    requires Runs(c, External(opts, true), acts) && StillPolls(acts)
    ensures var t := After(c, External(opts, true), acts);
            && |t.threads| > 1 && Enabled(t, Advance(1, true))
            && var dead := Step(c, t, Advance(1, true));
               && dead.sh == t.sh && Enabled(dead, Advance(1, choice))
               && var told := Step(c, dead, Advance(1, choice));
               && told.sh.sess.state == (if t.sh.sess.state.StateRunning? then StateStopped else t.sh.sess.state)
               && Plays(OwesEmit, told.threads[1])
  {
    var s := External(opts, true);
    var t := After(c, s, acts);
    InitInv(c, s);
    RunKeepsInv(c, s, acts);
    PollerWaits(c, s, acts);
    NeverStarting(c, t);
    hide Inv;
    var dead := Step(c, t, Advance(1, true));
    assert dead.threads[1] == Poller(RecordDeath);
    DeathStep(c, dead, 1, choice);
  }

  lemma NeverStarting(c: Policy, t: Sys)
    requires Inv(c, t)
    ensures !t.sh.sess.state.StateStarting?
  {
  }
}
