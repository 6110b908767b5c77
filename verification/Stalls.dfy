/** How many failed probes it takes to stall a running session: one, whatever the threshold. */
module Stalls {
  import opened SessionTypes
  import opened Sections
  import opened Lifecycle
  import opened Accounting
  import opened Invariant
  import opened Preservation

  /** A running session has no failure on its count. */
  predicate RunningClean(sess: Session) {
    sess.state.StateRunning? ==> sess.consecutiveFailures == 0
  }

  lemma LoopKeepsClean(c: Policy, sh: Shared, pc: LoopPc, choice: bool)
    requires RunningClean(sh.sess)
    ensures RunningClean(AdvanceLoop(c, sh, pc, choice).sh.sess)
  {
  }

  lemma ProberKeepsClean(c: Policy, sh: Shared, pc: ProberPc, choice: bool)
    requires RunningClean(sh.sess)
    ensures RunningClean(AdvanceProber(c, sh, pc, choice).sh.sess)
  {
  }

  lemma ThreadKeepsClean(c: Policy, sh: Shared, t: Thread, choice: bool)
    requires RunningClean(sh.sess)
    ensures RunningClean(AdvanceThread(c, sh, t, choice).sh.sess)
  {
    hide AdvanceLoop, AdvanceProber;
    match t
    case Loop(pc) => LoopKeepsClean(c, sh, pc, choice);
    case Prober(pc) => ProberKeepsClean(c, sh, pc, choice);
    case Monitor(pc, p, k) =>
    case Stopper(pc) =>
    case _ =>
  }

  lemma {:induction false} RunKeepsClean(c: Policy, s: Sys, acts: seq<Action>)
    requires RunningClean(s.sh.sess) && Runs(c, s, acts)
    ensures RunningClean(After(c, s, acts).sh.sess)
    decreases |acts|
  {
    hide AdvanceThread, RunningClean;
    if acts != [] {
      if acts[0].Advance? {
        ThreadKeepsClean(c, s.sh, s.threads[acts[0].i], acts[0].choice);
      }
      RunKeepsClean(c, Step(c, s, acts[0]), acts[1..]);
    }
  }

  /** A prober's step takes a running session to Stalled. */
  predicate ProbeStalls(c: Policy, s: Sys, a: Action) {
    && Enabled(s, a) && a.Advance? && s.threads[a.i].Prober?
    && s.sh.sess.state.StateRunning? && Step(c, s, a).sh.sess.state.StateStalled?
  }

  lemma StallIsFailure(c: Policy, s: Sys, a: Action)
    requires Inv(c, s) && RunningClean(s.sh.sess) && ProbeStalls(c, s, a)
    ensures Step(c, s, a).sh.sess.consecutiveFailures == 1
  {
    hide Inv;
  }

  /** Whenever a probe stalls a running session, the run of failures is one long. */
  lemma FirstFailureStalls(c: Policy, s: Sys, acts: seq<Action>, a: Action)
    requires Init(s) && Runs(c, s, acts) && ProbeStalls(c, After(c, s, acts), a)
    ensures TrailingFailures(Step(c, After(c, s, acts), a).sh.log) == 1
  {
    var t := After(c, s, acts);
    assert RunningClean(s.sh.sess);
    hide ProbeStalls, Step, ThreadsOk, TalliesOk, HandlesOk;
    RunKeepsClean(c, s, acts);
    Reachable(c, s, acts);
    StallIsFailure(c, t, a);
    StallEnabled(c, t, a);
    StepKeepsInv(c, t, a);
  }

  lemma StallEnabled(c: Policy, s: Sys, a: Action)
    requires ProbeStalls(c, s, a)
    ensures Enabled(s, a)
  {
  }

  /** No probe stalls a running session before the run of failures has reached the threshold. */
  ghost predicate StallsAtThreshold(c: Policy) {
    forall s, acts, a :: Init(s) && Runs(c, s, acts) && ProbeStalls(c, After(c, s, acts), a)
      ==> TrailingFailures(Step(c, After(c, s, acts), a).sh.log) >= c.failureThreshold
  }

  /** In every tunnel the first probe can fail, and that stalls it. */
  lemma FirstProbeStalls(c: Policy, opts: SessionOpts)
    requires opts.typ.TypePortForward?
    ensures var acts := [Advance(2, true), Advance(2, false)];
            Runs(c, Started(opts), acts) && ProbeStalls(c, After(c, Started(opts), acts), Advance(2, false))
  {
    var s := Started(opts);
    var s1 := Step(c, s, Advance(2, true));
    var s2 := Step(c, s1, Advance(2, false));
    assert s2.threads[2] == Prober(ApplyResult(false));
    var acts := [Advance(2, true), Advance(2, false)];
    assert acts[1..] == [Advance(2, false)] && acts[1..][1..] == [];
    assert Runs(c, s2, []) && Runs(c, s1, acts[1..]);
    assert After(c, s, acts) == After(c, s1, acts[1..]) == After(c, s2, []) == s2;
  }

  /** The documented rule holds for a policy if and only if its threshold is one. */
  lemma StallsAtThresholdExactly(c: Policy)
    ensures StallsAtThreshold(c) <==> c.failureThreshold == 1
  {
    hide Init, AdvanceThread;
    if c.failureThreshold == 1 {
      forall s, acts, a | Init(s) && Runs(c, s, acts) && ProbeStalls(c, After(c, s, acts), a)
        ensures TrailingFailures(Step(c, After(c, s, acts), a).sh.log) >= c.failureThreshold
      {
        FirstFailureStalls(c, s, acts, a);
      }
    } else {
      var opts := SessionOpts("", "", "", TypePortForward, 0, 0, "");
      var acts := [Advance(2, true), Advance(2, false)];
      FirstProbeStalls(c, opts);
      StartedInit(opts);
      FirstFailureStalls(c, Started(opts), acts, Advance(2, false));
      assert !StallsAtThreshold(c);
    }
  }

  lemma StartedInit(opts: SessionOpts)
    ensures Init(Started(opts))
  {
  }
}
