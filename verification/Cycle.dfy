/** How long one reconnect cycle can go on: its header checks and its total sleep. */
module Cycle {
  import opened SessionTypes
  import opened Sections
  import opened Lifecycle
  import opened Accounting
  import opened Tallies
  import opened Invariant
  import opened Preservation
  import opened Backoff

  predicate ChecksHeader(s: Sys, i: nat, a: Action) {
    a.Advance? && a.i == i && i < |s.threads| && s.threads[i] == Loop(CheckHeader)
  }

  /** How often goroutine i checks the loop header in a run. */
  function Headers(c: Policy, s: Sys, i: nat, acts: seq<Action>): nat
    requires Runs(c, s, acts)
    decreases |acts|
  {
    if acts == [] then 0
    else One(ChecksHeader(s, i, acts[0])) + Headers(c, Step(c, s, acts[0]), i, acts[1..])
  }

  /** The sleep after failed attempt n; a negative delay does not sleep at all. */
  function SleepAfter(c: Policy, n: nat): nat
    requires n >= 1
  {
    var delay := Doubled(c.backoffInitial, n - 1, c.backoffMax);
    if delay < 0 then 0 else delay
  }

  function SleepIn(c: Policy, s: Sys, i: nat, a: Action): nat {
    if a.Advance? && a.i == i && i < |s.threads| && s.threads[i].Loop? && s.threads[i].lpc.SleepBackoff?
       && s.threads[i].lpc.try.n >= 1
    then SleepAfter(c, s.threads[i].lpc.try.n)
    else 0
  }

  /** How long goroutine i sleeps in a run. */
  function Slept(c: Policy, s: Sys, i: nat, acts: seq<Action>): nat
    requires Runs(c, s, acts)
    decreases |acts|
  {
    if acts == [] then 0
    else SleepIn(c, s, i, acts[0]) + Slept(c, Step(c, s, acts[0]), i, acts[1..])
  }

  /** The documented delays of attempts from..max, added up. */
  function DelaysFrom(c: Policy, from: nat): int
    requires from >= 1
    decreases c.maxAttempts + 1 - from
  {
    if from > c.maxAttempts then 0
    else Delay(from, c.backoffInitial, c.backoffMax) + DelaysFrom(c, from + 1)
  }

  lemma {:induction false} DelaysNonNegative(c: Policy, from: nat)
    requires from >= 1
    ensures DelaysFrom(c, from) >= 0
    decreases c.maxAttempts + 1 - from
  {
    if from <= c.maxAttempts {
      MulAtLeast(c.backoffInitial, Pow2(from - 1));
      DelaysNonNegative(c, from + 1);
    }
  }

  /** Whether the loop may check its header again. */
  predicate MayCheck(pc: LoopPc) {
    pc.CheckHeader? || CurrentTry(pc).Some?
  }

  /** Header checks goroutine i can still make without a reset. */
  function HeadersLeft(c: Policy, sh: Shared, t: Thread): int {
    if t.Loop? && MayCheck(t.lpc) then c.maxAttempts - sh.sess.attempts + 1 else 0
  }

  function SleepLeft(c: Policy, sh: Shared, t: Thread): int {
    if !t.Loop? || !MayCheck(t.lpc) then 0
    else
      var current := CurrentTry(t.lpc);
      DelaysFrom(c, sh.sess.attempts + 1)
      + if current.Some? && current.value.n >= 1 then Delay(current.value.n, c.backoffInitial, c.backoffMax) else 0
  }

  lemma SleepAtMostDelay(c: Policy, n: nat)
    requires n >= 1
    ensures SleepAfter(c, n) <= Delay(n, c.backoffInitial, c.backoffMax)
    ensures Delay(n, c.backoffInitial, c.backoffMax) >= 0
  {
    NeverAboveDelay(c.backoffInitial, n - 1, c.backoffMax);
    MulAtLeast(c.backoffInitial, Pow2(n - 1));
  }

  lemma LoopSpendsHeaders(c: Policy, sh: Shared, pc: LoopPc, choice: bool)
    requires sh.sess.attempts <= c.maxAttempts
    ensures var o := AdvanceLoop(c, sh, pc, choice);
            && (o.next.Loop? || o.next.Finished?)
            && HeadersLeft(c, o.sh, o.next) + One(pc.CheckHeader?) <= HeadersLeft(c, sh, Loop(pc))
  {
  }

  lemma LoopSpendsSleep(c: Policy, sh: Shared, pc: LoopPc, choice: bool)
    requires LoopOk(c, sh, pc)
    ensures var o := AdvanceLoop(c, sh, pc, choice);
            var sleep := if pc.SleepBackoff? then SleepAfter(c, pc.try.n) else 0;
            SleepLeft(c, o.sh, o.next) + sleep <= SleepLeft(c, sh, Loop(pc))
  {
    hide InstalledLive, OptsFromSession, Delay, SleepAfter;
    DelaysNonNegative(c, sh.sess.attempts + 1);
    if CurrentTry(pc).Some? {
      SleepAtMostDelay(c, CurrentTry(pc).value.n);
    }
  }

  /** A counted probe result or a manual trigger either is a reset or leaves the attempt counter alone. */
  lemma ProbeResets(c: Policy, sh: Shared, ok: bool)
    ensures var sh' := AdvanceProber(c, sh, ApplyResult(ok), false).sh;
            && Resets(sh'.log) >= Resets(sh.log)
            && (Resets(sh'.log) == Resets(sh.log) ==> sh'.sess.attempts == sh.sess.attempts)
  {
    var (_, o) := ProbeSection(c, sh.sess, ok);
    assert sh.log + [] == sh.log;
    Snoc(c, sh.log, ProbeSucceeded);
    Snoc(c, sh.log, ProbeFailed);
    if o.reconnect {
      Snoc(c, sh.log + [ProbeFailed], ProbeTriggered);
      assert sh.log + [ProbeFailed, ProbeTriggered] == sh.log + [ProbeFailed] + [ProbeTriggered];
    }
  }

  lemma ManualResets(sh: Shared)
    ensures var sh' := Trigger(sh, true, Finished).sh;
            && Resets(sh'.log) >= Resets(sh.log)
            && (Resets(sh'.log) == Resets(sh.log) ==> sh'.sess.attempts == sh.sess.attempts)
  {
    assert sh.log + [] == sh.log;
    Snoc(Policy(1, 1, 1, 1), sh.log, ManualReset);
  }

  lemma LoopResets(c: Policy, sh: Shared, pc: LoopPc)
    requires Records(Loop(pc))
    ensures Resets(AdvanceLoop(c, sh, pc, false).sh.log) == Resets(sh.log)
  {
    Snoc(c, sh.log, LoopGaveUp);
    Snoc(c, sh.log, AttemptBegun(sh.sess.attempts + 1));
    if pc.InstallFresh? {
      Snoc(c, sh.log, Installed(pc.p));
    }
  }

  /** Resets are never taken back, and only they and the loop change the attempt counter. */
  lemma ResetsGrow(c: Policy, sh: Shared, t: Thread, choice: bool)
    ensures var sh' := AdvanceThread(c, sh, t, choice).sh;
            && Resets(sh'.log) >= Resets(sh.log)
            && (Resets(sh'.log) == Resets(sh.log) && !t.Loop? ==> sh'.sess.attempts == sh.sess.attempts)
  {
    if !Records(t) {
      QuietKeepsCounts(c, sh, t, choice);
    } else {
      match t
      case Loop(pc) => LoopResets(c, sh, pc);
      case Prober(ApplyResult(ok)) => ProbeResets(c, sh, ok);
      case Reconnector(TriggerManual) => ManualResets(sh);
    }
  }

  /** Goroutine i is the cycle's loop, or was and has finished. */
  predicate Cycling(s: Sys, i: nat) {
    i < |s.threads| && (s.threads[i].Loop? || s.threads[i].Finished?)
  }

  lemma StepSpends(c: Policy, s: Sys, i: nat, a: Action)
    requires Inv(c, s) && Enabled(s, a) && Cycling(s, i)
    requires Resets(Step(c, s, a).sh.log) == Resets(s.sh.log)
    ensures var s' := Step(c, s, a);
            && Cycling(s', i)
            && HeadersLeft(c, s'.sh, s'.threads[i]) + One(ChecksHeader(s, i, a)) <= HeadersLeft(c, s.sh, s.threads[i])
            && SleepLeft(c, s'.sh, s'.threads[i]) + SleepIn(c, s, i, a) <= SleepLeft(c, s.sh, s.threads[i])
  {
    if a.Advance? {
      assert ThreadOk(c, s.sh, s.threads[a.i]);
      if a.i == i {
        LoopSpendsHeaders(c, s.sh, s.threads[i].lpc, a.choice);
        LoopSpendsSleep(c, s.sh, s.threads[i].lpc, a.choice);
      } else if s.threads[i].Loop? {
        OneLoop(s, i, a.i);
        ResetsGrow(c, s.sh, s.threads[a.i], a.choice);
      }
    }
  }

  lemma {:induction false} RunResetsGrow(c: Policy, s: Sys, acts: seq<Action>)
    requires Runs(c, s, acts)
    ensures Resets(After(c, s, acts).sh.log) >= Resets(s.sh.log)
    decreases |acts|
  {
    if acts != [] {
      if acts[0].Advance? {
        ResetsGrow(c, s.sh, s.threads[acts[0].i], acts[0].choice);
      }
      RunResetsGrow(c, Step(c, s, acts[0]), acts[1..]);
    }
  }

  lemma {:induction false} RunSpends(c: Policy, s: Sys, i: nat, acts: seq<Action>)
    requires Inv(c, s) && Cycling(s, i)
    requires Runs(c, s, acts) && Resets(After(c, s, acts).sh.log) == Resets(s.sh.log)
    ensures Headers(c, s, i, acts) <= HeadersLeft(c, s.sh, s.threads[i])
    ensures Slept(c, s, i, acts) <= SleepLeft(c, s.sh, s.threads[i])
    decreases |acts|
  {
    hide ThreadsOk, TalliesOk, AdvanceThread;
    if acts == [] {
      DelaysNonNegative(c, s.sh.sess.attempts + 1);
      BudgetsNonNegative(c, s, i);
    } else {
      var a := acts[0];
      var s' := Step(c, s, a);
      if a.Advance? {
        ResetsGrow(c, s.sh, s.threads[a.i], a.choice);
      }
      RunResetsGrow(c, s', acts[1..]);
      StepSpends(c, s, i, a);
      StepKeepsInv(c, s, a);
      RunSpends(c, s', i, acts[1..]);
    }
  }

  lemma BudgetsNonNegative(c: Policy, s: Sys, i: nat)
    requires Inv(c, s) && Cycling(s, i)
    ensures HeadersLeft(c, s.sh, s.threads[i]) >= 0 && SleepLeft(c, s.sh, s.threads[i]) >= 0
  {
    DelaysNonNegative(c, s.sh.sess.attempts + 1);
    var t := s.threads[i];
    if t.Loop? && CurrentTry(t.lpc).Some? && CurrentTry(t.lpc).value.n >= 1 {
      SleepAtMostDelay(c, CurrentTry(t.lpc).value.n);
    }
  }

  lemma CycleBudget(c: Policy, t: Sys, i: nat, cycle: seq<Action>)
    requires Inv(c, t) && i < |t.threads| && t.threads[i] == Loop(CheckHeader)
    requires Runs(c, t, cycle) && Resets(After(c, t, cycle).sh.log) == Resets(t.sh.log)
    ensures Headers(c, t, i, cycle) <= c.maxAttempts - t.sh.sess.attempts + 1
    ensures Slept(c, t, i, cycle) <= DelaysFrom(c, t.sh.sess.attempts + 1)
  {
    hide Inv, Step, Enabled;
    RunSpends(c, t, i, cycle);
  }

  /**
   A reconnect cycle during which nothing resets the attempt counter makes at most
   max - attempts + 1 header checks and sleeps no longer than the documented delays of the attempts left, whatever the
   settings: where the computed delay wraps around it is shorter than documented, never longer.
   */
  lemma CycleEnds(c: Policy, s: Sys, acts: seq<Action>, i: nat, cycle: seq<Action>)
    requires Init(s) && Runs(c, s, acts)
    requires var t := After(c, s, acts);
             && i < |t.threads| && t.threads[i] == Loop(CheckHeader)
             && Runs(c, t, cycle)
             && Resets(After(c, t, cycle).sh.log) == Resets(t.sh.log)
    ensures var t := After(c, s, acts);
            && Headers(c, t, i, cycle) <= c.maxAttempts - t.sh.sess.attempts + 1
            && Slept(c, t, i, cycle) <= DelaysFrom(c, t.sh.sess.attempts + 1)
  {
    hide Inv, Step, Enabled, Init;
    Reachable(c, s, acts);
    CycleBudget(c, After(c, s, acts), i, cycle);
  }
}
