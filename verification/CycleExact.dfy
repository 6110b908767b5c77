/** How many headers a reconnect cycle checks, and how long it sleeps, exactly. */
module CycleExact {
  import opened SessionTypes
  import opened Lifecycle
  import opened Accounting
  import opened Tallies
  import opened Invariant
  import opened Preservation
  import opened Backoff
  import opened Cycle

  /** Settings for which the computed delays are the documented ones. */
  predicate SafeDelays(c: Policy) {
    SafePolicy(c.backoffInitial, c.backoffMax)
  }

  lemma SleepIsDelay(c: Policy, n: nat)
    requires SafeDelays(c) && n >= 1
    ensures SleepAfter(c, n) == Delay(n, c.backoffInitial, c.backoffMax)
  {
    SafeDoubles(c.backoffInitial, n - 1, c.backoffMax);
    MulAtLeast(c.backoffInitial, Pow2(n - 1));
  }

  /** Goroutine t is a loop that may check its header again. */
  predicate Going(t: Thread) {
    t.Loop? && MayCheck(t.lpc)
  }

  lemma LoopSpendsExactly(c: Policy, sh: Shared, pc: LoopPc, choice: bool)
    requires LoopOk(c, sh, pc) && SafeDelays(c) && sh.sess.attempts <= c.maxAttempts
    ensures var o := AdvanceLoop(c, sh, pc, choice);
            && (Going(o.next) ==> Going(Loop(pc)))
            && (Going(o.next) ==>
                  && HeadersLeft(c, o.sh, o.next) + One(pc.CheckHeader?) == HeadersLeft(c, sh, Loop(pc))
                  && SleepLeft(c, o.sh, o.next) + (if pc.SleepBackoff? then SleepAfter(c, pc.try.n) else 0)
                     == SleepLeft(c, sh, Loop(pc)))
  {
    hide InstalledLive, Delay, SleepAfter, SafeDelays;
    if CurrentTry(pc).Some? {
      SleepIsDelay(c, CurrentTry(pc).value.n);
    }
  }

  /** A goroutine that is not such a loop, and has been one, is none again. */
  lemma StepGoes(c: Policy, s: Sys, i: nat, a: Action)
    requires Inv(c, s) && Enabled(s, a) && Cycling(s, i) && SafeDelays(c)
    requires Resets(Step(c, s, a).sh.log) == Resets(s.sh.log)
    ensures var s' := Step(c, s, a);
            && Cycling(s', i) && (Going(s'.threads[i]) ==> Going(s.threads[i]))
            && (Going(s'.threads[i]) ==>
                  && HeadersLeft(c, s'.sh, s'.threads[i]) + One(ChecksHeader(s, i, a)) == HeadersLeft(c, s.sh, s.threads[i])
                  && SleepLeft(c, s'.sh, s'.threads[i]) + SleepIn(c, s, i, a) == SleepLeft(c, s.sh, s.threads[i]))
  {
    hide AdvanceThread, HeadersLeft, SleepLeft, SleepIn, SafeDelays, SharedOk, ThreadsOk, TalliesOk, Going;
    if a.Advance? && a.i == i {
      StillLoop(c, s, i, a.choice);
      LoopGoes(c, s, i, a.choice);
    } else {
      OthersLeaveIt(c, s, i, a);
    }
  }

  lemma StillLoop(c: Policy, s: Sys, i: nat, choice: bool)
    requires Enabled(s, Advance(i, choice)) && Cycling(s, i)
    ensures s.threads[i].Loop?
  {
  }

  /** What others do changes neither how often the loop can check its header nor how long it can sleep. */
  lemma OthersLeaveIt(c: Policy, s: Sys, i: nat, a: Action)
    requires Inv(c, s) && Enabled(s, a) && Cycling(s, i) && !(a.Advance? && a.i == i)
    requires Resets(Step(c, s, a).sh.log) == Resets(s.sh.log)
    ensures var s' := Step(c, s, a);
            && Cycling(s', i) && s'.threads[i] == s.threads[i]
            && (Going(s.threads[i]) ==>
                  && HeadersLeft(c, s'.sh, s'.threads[i]) + One(ChecksHeader(s, i, a)) == HeadersLeft(c, s.sh, s.threads[i])
                  && SleepLeft(c, s'.sh, s'.threads[i]) + SleepIn(c, s, i, a) == SleepLeft(c, s.sh, s.threads[i]))
  {
    if a.Advance? && s.threads[i].Loop? {
      OneLoop(s, i, a.i);
      ResetsGrow(c, s.sh, s.threads[a.i], a.choice);
    }
    hide Inv, AdvanceThread;
    var s' := Step(c, s, a);
    assert Going(s.threads[i]) ==> s'.sh.sess.attempts == s.sh.sess.attempts;
    hide HeadersLeft, SleepLeft, MayCheck;
    if Going(s.threads[i]) {
      OnlyAttemptsMatter(c, s.sh, s'.sh, s.threads[i]);
    }
  }

  lemma OnlyAttemptsMatter(c: Policy, sh: Shared, sh': Shared, t: Thread)
    requires sh'.sess.attempts == sh.sess.attempts
    ensures HeadersLeft(c, sh', t) == HeadersLeft(c, sh, t) && SleepLeft(c, sh', t) == SleepLeft(c, sh, t)
  {
  }

  lemma LoopGoes(c: Policy, s: Sys, i: nat, choice: bool)
    requires Inv(c, s) && Enabled(s, Advance(i, choice)) && s.threads[i].Loop? && SafeDelays(c)
    ensures var s' := Step(c, s, Advance(i, choice));
            var pc := s.threads[i].lpc;
            && Cycling(s', i) && (Going(s'.threads[i]) ==> Going(s.threads[i]))
            && (Going(s'.threads[i]) ==>
                  && HeadersLeft(c, s'.sh, s'.threads[i]) + One(ChecksHeader(s, i, Advance(i, choice))) == HeadersLeft(c, s.sh, s.threads[i])
                  && SleepLeft(c, s'.sh, s'.threads[i]) + SleepIn(c, s, i, Advance(i, choice)) == SleepLeft(c, s.sh, s.threads[i]))
  {
    assert ThreadOk(c, s.sh, s.threads[i]);
    LoopSpendsExactly(c, s.sh, s.threads[i].lpc, choice);
    LoopSpendsHeaders(c, s.sh, s.threads[i].lpc, choice);
  }

  lemma {:induction false} RunGoes(c: Policy, s: Sys, i: nat, acts: seq<Action>)
    requires Inv(c, s) && Cycling(s, i) && SafeDelays(c)
    requires Runs(c, s, acts) && Resets(After(c, s, acts).sh.log) == Resets(s.sh.log)
    ensures Cycling(After(c, s, acts), i)
    ensures var t := After(c, s, acts);
            Going(t.threads[i]) ==>
              && Going(s.threads[i])
              && Headers(c, s, i, acts) == HeadersLeft(c, s.sh, s.threads[i]) - HeadersLeft(c, t.sh, t.threads[i])
              && Slept(c, s, i, acts) == SleepLeft(c, s.sh, s.threads[i]) - SleepLeft(c, t.sh, t.threads[i])
    decreases |acts|
  {
    hide Inv, Step, Enabled, Going, HeadersLeft, SleepLeft, SleepIn, SafeDelays;
    if acts != [] {
      var a, s' := acts[0], Step(c, s, acts[0]);
      RunResetsGrow(c, s', acts[1..]);
      StepResetsGrow(c, s, a);
      StepGoes(c, s, i, a);
      StepKeepsInv(c, s, a);
      RunGoes(c, s', i, acts[1..]);
    }
  }

  lemma StepResetsGrow(c: Policy, s: Sys, a: Action)
    requires Enabled(s, a)
    ensures Resets(Step(c, s, a).sh.log) >= Resets(s.sh.log)
  {
    hide AdvanceThread;
    if a.Advance? {
      ResetsGrow(c, s.sh, s.threads[a.i], a.choice);
    }
  }

  lemma AttemptsKnown(c: Policy, s: Sys)
    requires Inv(c, s)
    ensures s.sh.sess.attempts <= c.maxAttempts
  {
  }

  /**
   Between two visits to its header, without a reset, a loop checks its header once for each attempt and
   sleeps, after each failed attempt, for the documented delay: neither longer nor shorter.
   */
  lemma CycleSleepsExactly(c: Policy, s: Sys, acts: seq<Action>, i: nat, cycle: seq<Action>)
    requires Init(s) && Runs(c, s, acts) && SafeDelays(c)
    requires var t := After(c, s, acts);
             && i < |t.threads| && t.threads[i] == Loop(CheckHeader)
             && Runs(c, t, cycle)
             && Resets(After(c, t, cycle).sh.log) == Resets(t.sh.log)
             && i < |After(c, t, cycle).threads| && After(c, t, cycle).threads[i] == Loop(CheckHeader)
    ensures var t := After(c, s, acts);
            var u := After(c, t, cycle);
            && Headers(c, t, i, cycle) == u.sh.sess.attempts - t.sh.sess.attempts
            && Slept(c, t, i, cycle) == DelaysFrom(c, t.sh.sess.attempts + 1) - DelaysFrom(c, u.sh.sess.attempts + 1)
  {
    hide Inv, Step, Enabled, Init, SafeDelays;
    Reachable(c, s, acts);
    RunGoes(c, After(c, s, acts), i, cycle);
  }
}
