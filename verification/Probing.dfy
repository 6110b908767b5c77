/** What a probe does to its session, and when a prober goes on. */
module Probing {
  import opened SessionTypes
  import opened Sections
  import opened Lifecycle
  import opened Accounting
  import opened Reach

  // ---------------------------------------------------------------- the result of one probe

  /** A session that is not there, or that has come to an end or is about to, is not probed any more. */
  predicate Over(sess: Session) {
    !sess.registered || sess.state.StateStopping? || sess.state.StateStopped? || sess.state.StateErrored?
  }

  /** A result counts for a registered session that is Running or Stalled. */
  predicate Counted(sess: Session) {
    sess.registered && (sess.state.StateRunning? || sess.state.StateStalled?)
  }

  predicate ProbeApplied(before: Shared, ok: bool, after: Shared) {
    if !Counted(before.sess) then
      after.sess == before.sess && after.log == before.log
    else if ok then
      && after.sess.state.StateRunning?
      && TrailingFailures(after.log) == 0 && SinceReset(after.log) == 0
      && after.sess.consecutiveFailures == 0 && after.sess.attempts == 0
    else
      && after.sess.state.StateStalled?
      && TrailingFailures(after.log) == TrailingFailures(before.log) + 1 && SinceReset(after.log) == SinceReset(before.log)
      && after.sess.consecutiveFailures == before.sess.consecutiveFailures + 1 && after.sess.attempts == before.sess.attempts
  }

  lemma ApplyStep(c: Policy, sh: Shared, ok: bool, choice: bool)
    ensures var o := AdvanceProber(c, sh, ApplyResult(ok), choice);
            && (o.next == Prober(LeaveGate) <==> Over(sh.sess))
            && ProbeApplied(sh, ok, o.sh)
            && (!Counted(sh.sess) && !Over(sh.sess) ==> o.next == Prober(WaitTick))
  {
    hide SinceReset, TrailingFailures;
    Snoc(c, sh.log, ProbeSucceeded);
    Snoc(c, sh.log, ProbeFailed);
    Snoc(c, sh.log + [ProbeFailed], ProbeTriggered);
    assert sh.log + [ProbeFailed, ProbeTriggered] == sh.log + [ProbeFailed] + [ProbeTriggered];
    assert sh.log + [] == sh.log;
  }

  /**
   In every state, whatever a probe says: the prober leaves if and only if the session is not registered or
   is Stopping, Stopped or Errored. A counted success makes the session Running and starts both counts
   afresh; a counted failure makes it Stalled and adds one failure; any other result changes nothing.
   */
  lemma ProbeExactly(c: Policy, t: Sys, i: nat, choice: bool, ok: bool)
    requires i < |t.threads| && t.threads[i] == Prober(ApplyResult(ok))
    ensures var t' := Step(c, t, Advance(i, choice));
            && (t'.threads[i] == Prober(LeaveGate) <==> Over(t.sh.sess))
            && ProbeApplied(t.sh, ok, t'.sh)
            && t'.threads[i].Prober?
  {
    hide ProbeApplied, AdvanceProber, Over;
    ApplyStep(c, t.sh, ok, choice);
    StaysProber(c, t.sh, ok, choice);
  }

  lemma StaysProber(c: Policy, sh: Shared, ok: bool, choice: bool)
    ensures AdvanceProber(c, sh, ApplyResult(ok), choice).next.Prober? && AdvanceProber(c, sh, ApplyResult(ok), choice).spawn.None?
  {
    hide ProbeSection, ProbeEvents;
  }

  // ---------------------------------------------------------------- the next probe

  /** A prober that will probe again unless it is told to leave: past its gate, or at a gate that is free. */
  predicate MayProbe(sh: Shared, t: Thread) {
    t.Prober? && !t.ppc.LeaveGate? && !t.ppc.ApplyResult? && (t.ppc.EnterGate? ==> !sh.sess.probeInFlight)
  }

  function ProbeRank(pc: ProberPc): nat {
    match pc
    case AnnounceProbe(_) => 5
    case TriggerFromProbe => 4
    case EnterGate => 3
    case WaitTick => 3
    case RunProber => 2
    case _ => 1
  }

  lemma ProbeApproaches(c: Policy, sh: Shared, pc: ProberPc, ok: bool)
    requires MayProbe(sh, Prober(pc))
    ensures var choice := if pc.RunProber? then ok else true;
            var o := AdvanceProber(c, sh, pc, choice);
            if pc.RunProber? then o.next == Prober(ApplyResult(ok))
            else MayProbe(o.sh, o.next) && ProbeRank(o.next.ppc) < ProbeRank(pc)
  {
    hide ProbeSection, TriggerSection;
  }

  /** Unless it leaves, a prober can always come to the next result, and that can be either. */
  lemma {:induction false} ProbesAgain(c: Policy, s: Sys, i: nat, ok: bool) returns (t: Sys)
    requires i < |s.threads| && MayProbe(s.sh, s.threads[i])
    ensures Comes(c, s, t) && i < |t.threads| && t.threads[i] == Prober(ApplyResult(ok))
    decreases ProbeRank(s.threads[i].ppc)
  {
    hide AdvanceProber, Comes, MayProbe;
    IsProber(s.sh, s.threads[i]);
    var pc := s.threads[i].ppc;
    var a := Advance(i, if pc.RunProber? then ok else true);
    ProbeApproaches(c, s.sh, pc, ok);
    if pc.RunProber? {
      t := Step(c, s, a);
      Next(c, s, a);
    } else {
      t := ProbesAgain(c, Step(c, s, a), i, ok);
      Goes(c, s, a, t);
    }
  }

  lemma IsProber(sh: Shared, t: Thread)
    requires MayProbe(sh, t)
    ensures t.Prober?
  {
  }

  /** A prober that has applied a result goes on to the next one unless the session was over. */
  lemma ProbingGoesOn(c: Policy, t: Sys, i: nat, choice: bool, ok: bool, next: bool) returns (u: Sys)
    requires i < |t.threads| && t.threads[i] == Prober(ApplyResult(ok)) && !Over(t.sh.sess)
    ensures Comes(c, t, u) && i < |u.threads| && u.threads[i] == Prober(ApplyResult(next))
  {
    var t' := Step(c, t, Advance(i, choice));
    StillMayProbe(c, t.sh, ok, choice);
    hide AdvanceProber, Comes, MayProbe, Over;
    u := ProbesAgain(c, t', i, next);
    Goes(c, t, Advance(i, choice), u);
  }

  lemma StillMayProbe(c: Policy, sh: Shared, ok: bool, choice: bool)
    requires !Over(sh.sess)
    ensures var o := AdvanceProber(c, sh, ApplyResult(ok), choice); MayProbe(o.sh, o.next)
  {
  }

  /** A new tunnel, whoever started it, comes with a prober that can get its first result. */
  lemma TunnelsAreProbed(c: Policy, opts: SessionOpts, hasChecker: bool, ok: bool) returns (t: Sys, u: Sys)
    requires opts.typ.TypePortForward?
    ensures Comes(c, Started(opts), t) && exists i :: 0 <= i < |t.threads| && t.threads[i] == Prober(ApplyResult(ok))
    ensures Comes(c, External(opts, hasChecker), u) && exists i :: 0 <= i < |u.threads| && u.threads[i] == Prober(ApplyResult(ok))
  {
    hide Comes;
    t := ProbesAgain(c, Started(opts), 2, ok);
    u := ProbesAgain(c, External(opts, hasChecker), if hasChecker then 2 else 1, ok);
  }
}
