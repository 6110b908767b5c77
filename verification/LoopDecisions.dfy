/** What the reconnect loop decides at its header and at an installation, in terms of the run so far. */
module LoopDecisions {
  import opened SessionTypes
  import opened Sections
  import opened Lifecycle
  import opened Accounting
  import opened Tallies
  import opened Invariant
  import opened Preservation
  import opened Channels
  import opened Drive

  /** The decision at the header: record a stop, leave, begin an attempt, or give up. */
  predicate Decided(c: Policy, before: Shared, after: Shared, next: Thread) {
    if before.sess.state.StateStopping? then
      after.sess == before.sess.(state := StateStopped) && Plays(OwesEmit, next) && Leaving(next)
    else if before.sess.state.StateStopped? || !before.sess.registered then
      after.sess == before.sess && Leaving(next)
    else if SinceReset(before.log) < c.maxAttempts then
      && after.sess.state.StateReconnecting? && SinceReset(after.log) == SinceReset(before.log) + 1
      && next.Loop? && next.lpc.AnnounceAttempt? && next.lpc.try.n == SinceReset(after.log)
    else
      after.sess.state.StateErrored? && Plays(OwesEmit, next) && Leaving(next)
  }

  lemma HeaderStep(c: Policy, sh: Shared, choice: bool)
    requires sh.sess.attempts == SinceReset(sh.log)
    ensures var o := AdvanceLoop(c, sh, CheckHeader, choice); Decided(c, sh, o.sh, o.next)
  {
    hide SinceReset, TrailingFailures, TriggeredBy, InstalledOrRefused;
    Snoc(c, sh.log, AttemptBegun(sh.sess.attempts + 1));
  }

  lemma CountsKnown(c: Policy, s: Sys, acts: seq<Action>)
    requires Init(s) && Runs(c, s, acts)
    ensures var sh := After(c, s, acts).sh; sh.sess.attempts == SinceReset(sh.log)
  {
    hide Init, Step, Enabled, ThreadsOk, TalliesOk;
    Reachable(c, s, acts);
  }

  /**
   In every run a loop at its header records a stop that nobody has recorded, leaves a session that was
   stopped or removed alone, begins an attempt if fewer than the maximum were begun since the last
   reset, and gives up otherwise.
   */
  lemma HeaderDecides(c: Policy, s: Sys, acts: seq<Action>, i: nat, choice: bool)
    requires Init(s) && Runs(c, s, acts)
    requires var t := After(c, s, acts); i < |t.threads| && t.threads[i] == Loop(CheckHeader)
    ensures var t := After(c, s, acts);
            var t' := Step(c, t, Advance(i, choice));
            Decided(c, t.sh, t'.sh, t'.threads[i])
  {
    hide Init, AdvanceLoop, Decided;
    CountsKnown(c, s, acts);
    HeaderStep(c, After(c, s, acts).sh, choice);
  }

  // ---------------------------------------------------------------- at the gate

  /** What a trigger does: nothing to a session that may not be respawned; else a loop is in flight, a new one if there was none. */
  predicate TriggeredBy(before: Shared, manual: bool, after: Shared, spawn: Option<Thread>) {
    if !before.sess.reconnectable then
      after.sess == before.sess && after.log == before.log && spawn.None?
    else
      && after.sess.reconnectInFlight && after.sess.state == before.sess.state && HandlesOf(after.sess) == HandlesOf(before.sess)
      && spawn == (if before.sess.reconnectInFlight then None else Some(Loop(CheckHeader)))
      && SinceReset(after.log) == after.sess.attempts == if manual then 0 else SinceReset(before.log)
  }

  lemma TriggerStep(sh: Shared, manual: bool, next: Thread)
    requires sh.sess.attempts == SinceReset(sh.log)
    ensures var o := Trigger(sh, manual, next); TriggeredBy(sh, manual, o.sh, o.spawn) && o.next == next
  {
    hide SinceReset;
    Snoc(Policy(1, 1, 1, 1), sh.log, ManualReset);
    assert sh.log + [] == sh.log;
  }

  /**
   In every run a trigger of a reconnectable session, by a probe, an exit or a user, leaves exactly one
   loop in flight, whether it had to start it or not; a user's one also starts the attempts afresh.
   */
  lemma TriggerDecides(c: Policy, s: Sys, acts: seq<Action>, i: nat, choice: bool)
    requires Init(s) && Runs(c, s, acts)
    requires var t := After(c, s, acts); i < |t.threads| && AtTrigger(t.threads[i])
    ensures var t := After(c, s, acts);
            var t' := Step(c, t, Advance(i, choice));
            exists spawn :: TriggeredBy(t.sh, t.threads[i].Reconnector?, t'.sh, spawn)
                         && t'.threads == t.threads[i := t'.threads[i]] + Spawned(spawn)
  {
    CountsKnown(c, s, acts);
    var t := After(c, s, acts);
    var next := AdvanceThread(c, t.sh, t.threads[i], choice).next;
    hide Init, TriggeredBy;
    TriggerStep(t.sh, t.threads[i].Reconnector?, next);
    assert TriggeredBy(t.sh, t.threads[i].Reconnector?, Step(c, t, Advance(i, choice)).sh, AdvanceThread(c, t.sh, t.threads[i], choice).spawn);
  }

  // ---------------------------------------------------------------- at an installation

  /** An installed subprocess takes over the session; a refused one leaves it stopped or removed. */
  predicate InstalledOrRefused(before: Shared, p: nat, after: Shared, next: Thread) {
    if before.sess.registered && !before.sess.state.IsStop() then
      && after.sess.state.StateRunning? && InstalledLive(after) && after.sess.cancel == Some(p)
      && TrailingFailures(after.log) == 0 && SinceReset(after.log) == SinceReset(before.log)
      && Plays(OwesEmit, next) && Plays(Waiter(p), next)
    else
      && (after.sess.state.StateStopped? || !after.sess.registered)
      && HandlesOf(after.sess) == HandlesOf(before.sess) && after.log == before.log
      && Plays(FreshHolder(p), next)
  }

  lemma InstallStep(c: Policy, sh: Shared, p: nat, k: nat, choice: bool)
    requires p < |sh.procs| && sh.procs[p].Live()
    ensures var o := AdvanceLoop(c, sh, InstallFresh(p, k), choice); InstalledOrRefused(sh, p, o.sh, o.next)
  {
    hide SinceReset, TrailingFailures;
    Snoc(c, sh.log, Installed(p));
    assert sh.log + [] == sh.log;
  }

  // ---------------------------------------------------------------- what a loop holds is untouched

  predicate Untouched(sh: Shared, p: nat) {
    p < |sh.procs| && !sh.procs[p].cancelled && !sh.procs[p].killed && sh.procs[p].waits == 0
  }

  predicate HoldsUntouched(sh: Shared, t: Thread) {
    t.Loop? && t.lpc.InstallFresh? ==> Untouched(sh, t.lpc.p)
  }

  ghost predicate FreshUntouched(s: Sys) {
    forall i :: 0 <= i < |s.threads| ==> HoldsUntouched(s.sh, s.threads[i])
  }

  lemma LoopHoldsUntouched(c: Policy, sh: Shared, pc: LoopPc, choice: bool)
    ensures var o := AdvanceLoop(c, sh, pc, choice);
            HoldsUntouched(o.sh, o.next) && (o.spawn.Some? ==> !o.spawn.value.Loop?)
  {
    hide HeaderSection, InstallSection;
  }

  lemma OtherHoldsNothing(c: Policy, sh: Shared, t: Thread, choice: bool)
    requires !t.Loop?
    ensures var o := AdvanceThread(c, sh, t, choice);
            !o.next.Loop? && (o.spawn.Some? ==> HoldsUntouched(o.sh, o.spawn.value))
  {
    hide ProbeSection, MonitorSection, TriggerSection, ProbeEvents;
  }

  /** A goroutine touches only the subprocess it waits for, or that a stop call found installed. */
  predicate Touches(t: Thread, p: nat) {
    Plays(Waiter(p), t)
    || (t.Stopper? && t.spc.CancelStopped? && t.spc.h.cancel == Some(p))
    || (t.Stopper? && t.spc.AwaitStopped? && t.spc.h.cmd == Some(p))
  }

  lemma OtherTouches(c: Policy, sh: Shared, t: Thread, choice: bool, p: nat)
    requires !t.Loop? && Untouched(sh, p) && !Touches(t, p)
    ensures Untouched(AdvanceThread(c, sh, t, choice).sh, p)
  {
    hide ProbeSection, MonitorSection, TriggerSection, ProbeEvents;
  }

  lemma NobodyTouches(c: Policy, s: Sys, i: nat, j: nat)
    requires Inv(c, s) && OwnershipOk(s) && i < |s.threads| && j < |s.threads| && i != j
    requires s.threads[j].Loop? && s.threads[j].lpc.InstallFresh? && HoldsUntouched(s.sh, s.threads[j])
    ensures !s.threads[i].Loop? && !Touches(s.threads[i], s.threads[j].lpc.p)
  {
    OneLoop(s, i, j);
    assert ThreadOk(c, s.sh, s.threads[i]) && ThreadOk(c, s.sh, s.threads[j]);
    assert TookOwned(s.sh, s.threads[i]) && FreshInHand(s.sh, s.threads[j]);
    var p := s.threads[j].lpc.p;
    assert Tally(Waiter(p), s.threads) + s.sh.procs[p].waits == 1;
    if Plays(Waiter(p), s.threads[i]) {
      TallyTwoHits(Waiter(p), s.threads, if i < j then i else j, if i < j then j else i);
    }
  }

  lemma AdvanceUntouched(c: Policy, s: Sys, i: nat, choice: bool)
    requires Inv(c, s) && OwnershipOk(s) && FreshUntouched(s) && Enabled(s, Advance(i, choice))
    ensures FreshUntouched(Step(c, s, Advance(i, choice)))
  {
    var s' := Step(c, s, Advance(i, choice));
    if s.threads[i].Loop? {
      LoopHoldsUntouched(c, s.sh, s.threads[i].lpc, choice);
    } else {
      OtherHoldsNothing(c, s.sh, s.threads[i], choice);
    }
    hide AdvanceThread, AdvanceLoop, OwnershipOk, Touches;
    forall j | 0 <= j < |s'.threads| ensures HoldsUntouched(s'.sh, s'.threads[j]) {
      if j < |s.threads| && j != i && s.threads[j].Loop? && s.threads[j].lpc.InstallFresh? {
        assert HoldsUntouched(s.sh, s.threads[j]);
        NobodyTouches(c, s, i, j);
        OtherTouches(c, s.sh, s.threads[i], choice, s.threads[j].lpc.p);
      }
    }
  }

  lemma StepUntouched(c: Policy, s: Sys, a: Action)
    requires Inv(c, s) && OwnershipOk(s) && FreshUntouched(s) && Enabled(s, a)
    ensures FreshUntouched(Step(c, s, a))
  {
    if a.Advance? {
      AdvanceUntouched(c, s, a.i, a.choice);
    } else {
      hide Inv, OwnershipOk;
      var s' := Step(c, s, a);
      forall j | 0 <= j < |s'.threads| ensures HoldsUntouched(s'.sh, s'.threads[j]) {
        if j < |s.threads| {
          assert HoldsUntouched(s.sh, s.threads[j]);
        }
      }
    }
  }

  lemma {:induction false} RunUntouched(c: Policy, s: Sys, acts: seq<Action>)
    requires Inv(c, s) && ChannelsManned(s) && FreshUntouched(s) && Runs(c, s, acts)
    ensures Inv(c, After(c, s, acts)) && FreshUntouched(After(c, s, acts))
    decreases |acts|
  {
    hide Inv, Step, Enabled, OwnershipOk, FreshUntouched, Counted, Manned;
    if acts != [] {
      StepUntouched(c, s, acts[0]);
      StepKeepsManned(c, s, acts[0]);
      StepKeepsInv(c, s, acts[0]);
      RunUntouched(c, Step(c, s, acts[0]), acts[1..]);
    }
  }

  lemma InitUntouched(s: Sys)
    requires Init(s)
    ensures FreshUntouched(s)
  {
  }

  lemma HeldIsUntouched(s: Sys, i: nat, p: nat, k: nat)
    requires FreshUntouched(s) && i < |s.threads| && s.threads[i] == Loop(InstallFresh(p, k))
    ensures Untouched(s.sh, p)
  {
    assert HoldsUntouched(s.sh, s.threads[i]);
  }

  /**
   In every run a loop installs its fresh subprocess if and only if the session is registered and not
   stopping or stopped. The session then runs on that subprocess, which is live, and on no other; a
   refused one is still to be disposed of, and the session stays stopped or removed.
   */
  lemma InstallsExactly(c: Policy, s: Sys, acts: seq<Action>, i: nat, choice: bool, p: nat, k: nat)
    requires Init(s) && Runs(c, s, acts)
    requires var t := After(c, s, acts); i < |t.threads| && t.threads[i] == Loop(InstallFresh(p, k))
    ensures var t := After(c, s, acts);
            var t' := Step(c, t, Advance(i, choice));
            InstalledOrRefused(t.sh, p, t'.sh, t'.threads[i])
  {
    hide Init, AdvanceLoop, InstalledOrRefused, Inv, ChannelsManned, FreshUntouched;
    InitInv(c, s);
    InitManned(s);
    InitUntouched(s);
    RunUntouched(c, s, acts);
    HeldIsUntouched(After(c, s, acts), i, p, k);
    InstallStep(c, After(c, s, acts).sh, p, k, choice);
  }

  // ---------------------------------------------------------------- after an installation

  /**
   Whoever is to wait for the installed subprocess: the loop on its way to spawn the monitor, and then
   the monitor. Every tunnel that was respawned also gets a prober, which its gate may turn away.
   */
  lemma RespawnIsWatched(c: Policy, s: Sys, acts: seq<Action>, i: nat, choice: bool)
    requires Init(s) && Runs(c, s, acts)
    requires var t := After(c, s, acts); i < |t.threads| && t.threads[i].Loop? && Plays(PendingMonitor, t.threads[i])
    ensures var t := After(c, s, acts);
            var t' := Step(c, t, Advance(i, choice));
            var p := t.threads[i].lpc.p;
            && t.sh.sess.cancel == Some(p)
            && (t'.threads[i] == Loop(SpawnMonitor(p, p))
                || (t'.threads[i] == Loop(SpawnProber) && t'.threads == t.threads[i := Loop(SpawnProber)] + [Monitor(WaitProcess, p, p)]))
  {
    Reachable(c, s, acts);
    var t := After(c, s, acts);
    assert ThreadOk(c, t.sh, t.threads[i]) && t.sh.sess.target.typ.TypePortForward?;
    hide Inv, Init, AdvanceLoop, LoopOk;
    WatchStep(c, t.sh, t.threads[i].lpc, choice);
  }

  lemma WatchStep(c: Policy, sh: Shared, pc: LoopPc, choice: bool)
    requires LoopOk(c, sh, pc) && Plays(PendingMonitor, Loop(pc)) && sh.sess.target.typ.TypePortForward?
    ensures (pc.AnnounceInstall? || pc.SpawnMonitor?) && sh.sess.cancel == Some(pc.p)
    ensures var o := AdvanceLoop(c, sh, pc, choice);
            if pc.AnnounceInstall? then o.next == Loop(SpawnMonitor(pc.p, pc.p)) && o.spawn.None?
            else o.next == Loop(SpawnProber) && o.spawn == Some(Monitor(WaitProcess, pc.p, pc.p))
  {
  }

  lemma ProberIsSpawned(c: Policy, t: Sys, i: nat, choice: bool)
    requires i < |t.threads| && t.threads[i] == Loop(SpawnProber)
    ensures Step(c, t, Advance(i, choice)).threads == t.threads[i := Loop(ClearInFlight)] + [Prober(EnterGate)]
  {
  }
}
