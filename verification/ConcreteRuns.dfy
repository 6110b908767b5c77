/**
 Runs of a tunnel that show, for every reconnect policy, where a plausible stronger claim about the
 manager fails. All of them begin with one manual reconnect, whose loop cancels the subprocess and
 gives up waiting for it after five seconds.
 */
module ConcreteRuns {
  import opened SessionTypes
  import opened Sections
  import opened Lifecycle
  import opened Invariant
  import opened Reach
  import opened Drive
  import opened StopSticks

  function Tunnel(opts: SessionOpts, state: SessionState, attempts: nat, loop: bool, h: nat): Session {
    Session(TargetOf(opts), true, true, state, attempts, 0, loop, false, Some(h), Some(h), Some(h))
  }

  const M0 := Monitor(WaitProcess, 0, 0)

  /** The first four goroutines: nothing but the loop and what it leads to ever moves. */
  const BYSTANDERS := [Announcer, M0, Prober(EnterGate), Finished]

  function Old(opts: SessionOpts): Proc {
    Proc(opts, true, true, false, 0, false)
  }

  function Fresh(opts: SessionOpts): Proc {
    Proc(opts, false, false, false, 0, false)
  }

  /** The log after n attempts. */
  function Begun(n: nat): seq<Event> {
    if n == 0 then [ManualReset] else Begun(n - 1) + [AttemptBegun(n)]
  }

  /** The loop is about to check its header, after n attempts that failed to start a subprocess. */
  function Retry(opts: SessionOpts, n: nat): Sys {
    if n == 0 then
      Sys(Shared(Tunnel(opts, StateRunning, 0, true, 0), [Fresh(opts)], [0], Begun(0), true), BYSTANDERS + [Loop(CheckHeader)])
    else
      Sys(Shared(Tunnel(opts, StateReconnecting, n, true, 0), [Old(opts)], [0], Begun(n), false), BYSTANDERS + [Loop(CheckHeader)])
  }

  function TryOf(opts: SessionOpts, n: nat): Try {
    Try(n, opts, Handles(Some(0), Some(0), Some(0)))
  }

  /** The n-th attempt has cancelled the old subprocess and waited for it in vain. */
  function Trying(opts: SessionOpts, n: nat): Sys {
    Sys(Shared(Tunnel(opts, StateReconnecting, n, true, 0), [Old(opts)], [0], Begun(n), false),
        BYSTANDERS + [Loop(StartFresh(TryOf(opts, n)))])
  }

  /** The n-th attempt has installed a new subprocess. */
  function Respawned(opts: SessionOpts, n: nat): Sys {
    Sys(Shared(Tunnel(opts, StateRunning, n, true, 1), [Old(opts), Fresh(opts)], [0, 0], Begun(n) + [Installed(1)], true),
        BYSTANDERS + [Loop(AnnounceInstall(1, 1))])
  }

  function Called(c: Policy, opts: SessionOpts): Sys {
    Step(c, Started(opts), CallReconnect)
  }

  lemma Asks(c: Policy, opts: SessionOpts)
    requires opts.typ.TypePortForward?
    ensures Comes(c, Called(c, opts), Retry(opts, 0))
  {
    hide Comes;
    var s0 := Called(c, opts);
    var s1 := Step(c, s0, Advance(3, false));
    var s2 := Step(c, s1, Advance(3, false));
    assert s2 == Retry(opts, 0);
    Next(c, s1, Advance(3, false));
    Goes(c, s0, Advance(3, false), s2);
  }

  /** The attempt is begun and the old subprocess about to be cancelled. */
  function Begins(opts: SessionOpts, n: nat): Sys {
    Sys(Shared(Tunnel(opts, StateReconnecting, n + 1, true, 0), [if n == 0 then Fresh(opts) else Old(opts)], [0], Begun(n + 1), false),
        BYSTANDERS + [Loop(CancelOld(TryOf(opts, n + 1)))])
  }

  lemma TryBegins(c: Policy, opts: SessionOpts, n: nat)
    requires n < c.maxAttempts
    ensures Comes(c, Retry(opts, n), Begins(opts, n))
  {
    hide Comes;
    var s0 := Retry(opts, n);
    var s1 := Step(c, s0, Advance(4, false));
    var s2 := Step(c, s1, Advance(4, false));
    assert s2 == Begins(opts, n);
    Next(c, s1, Advance(4, false));
    Goes(c, s0, Advance(4, false), s2);
  }

  lemma TryTimesOut(c: Policy, opts: SessionOpts, n: nat)
    ensures Comes(c, Begins(opts, n), Trying(opts, n + 1))
  {
    hide Comes;
    var s0 := Begins(opts, n);
    var s1 := Step(c, s0, Advance(4, false));
    var s2 := Step(c, s1, Advance(4, true));
    assert s2 == Trying(opts, n + 1);
    Next(c, s1, Advance(4, true));
    Goes(c, s0, Advance(4, false), s2);
  }

  lemma TryFails(c: Policy, opts: SessionOpts, n: nat)
    requires n > 0
    ensures Comes(c, Trying(opts, n), Retry(opts, n))
  {
    hide Comes;
    var s0 := Trying(opts, n);
    var s1 := Step(c, s0, Advance(4, false));
    var s2 := Step(c, s1, Advance(4, false));
    var s3 := Step(c, s2, Advance(4, false));
    var s4 := Step(c, s3, Advance(4, false));
    assert s4 == Retry(opts, n);
    Next(c, s3, Advance(4, false));
    Goes(c, s2, Advance(4, false), s4);
    Goes(c, s1, Advance(4, false), s4);
    Goes(c, s0, Advance(4, false), s4);
  }

  lemma TrySucceeds(c: Policy, opts: SessionOpts, n: nat)
    ensures Comes(c, Trying(opts, n), Respawned(opts, n))
  {
    hide Comes;
    var s0 := Trying(opts, n);
    var s1 := Step(c, s0, Advance(4, true));
    var s2 := Step(c, s1, Advance(4, false));
    assert s2 == Respawned(opts, n);
    Next(c, s1, Advance(4, false));
    Goes(c, s0, Advance(4, true), s2);
  }

  /** Every attempt the policy allows can be the first that starts a subprocess. */
  lemma {:induction false} TryComes(c: Policy, opts: SessionOpts, n: nat)
    requires opts.typ.TypePortForward? && 1 <= n <= c.maxAttempts
    ensures Comes(c, Called(c, opts), Trying(opts, n))
    decreases n
  {
    hide Comes, Retry, Begins, Trying, Called;
    if n == 1 {
      Asks(c, opts);
    } else {
      TryComes(c, opts, n - 1);
      TryFails(c, opts, n - 1);
      Then(c, Called(c, opts), Trying(opts, n - 1), Retry(opts, n - 1));
    }
    TryBegins(c, opts, n - 1);
    TryTimesOut(c, opts, n - 1);
    Then(c, Called(c, opts), Retry(opts, n - 1), Begins(opts, n - 1));
    Then(c, Called(c, opts), Begins(opts, n - 1), Trying(opts, n));
  }

  lemma RespawnComes(c: Policy, opts: SessionOpts, n: nat)
    requires opts.typ.TypePortForward? && 1 <= n <= c.maxAttempts
    ensures Comes(c, Called(c, opts), Respawned(opts, n))
  {
    hide Comes, Trying, Respawned, Called;
    TryComes(c, opts, n);
    TrySucceeds(c, opts, n);
    Then(c, Called(c, opts), Trying(opts, n), Respawned(opts, n));
  }

  /** Whatever comes of the call is reached by a run from the start. */
  lemma FromStart(c: Policy, opts: SessionOpts, t: Sys)
    requires Comes(c, Called(c, opts), t)
    ensures Leads(c, Started(opts), t)
  {
    hide Comes, Leads, Started;
    ComesLeads(c, Called(c, opts), t);
    LeadsOn(c, Started(opts), CallReconnect, t);
  }

  // ---------------------------------------------------------------- a monitor that disturbs the new state

  /** In `running` the monitor of a replaced subprocess takes a session with a live subprocess to Stalled. */
  ghost predicate StalledByOld(c: Policy, opts: SessionOpts, running: Sys, i: nat) {
    && Leads(c, Started(opts), running)
    && running.sh.sess.state.StateRunning? && InstalledLive(running.sh)
    && Enabled(running, Advance(i, false))
    && running.threads[i].Monitor? && Some(running.threads[i].cmd) != running.sh.sess.cmd
    && Step(c, running, Advance(i, false)).sh.sess.state.StateStalled?
  }

  /** Under every policy the monitor of a replaced subprocess can stall a session whose new subprocess is live and well. */
  lemma OldMonitorCanDisturb(c: Policy, opts: SessionOpts)
    requires opts.typ.TypePortForward?
    ensures exists running, i :: StalledByOld(c, opts, running, i)
  {
    hide Comes, Leads;
    RespawnComes(c, opts, 1);
    var running := MonitorReaches(c, Respawned(opts, 1), 1);
    Then(c, Called(c, opts), Respawned(opts, 1), running);
    FromStart(c, opts, running);
    assert StalledByOld(c, opts, running, 1);
  }

  // ---------------------------------------------------------------- an error that leaves a subprocess running

  /** The last attempt allowed has installed a subprocess and its loop is gone; no probe has confirmed it yet. */
  function Unconfirmed(opts: SessionOpts, n: nat): Sys {
    Sys(Shared(Tunnel(opts, StateRunning, n, false, 1), [Old(opts), Fresh(opts)], [0, 0], Begun(n) + [Installed(1)], false),
        BYSTANDERS + [Finished, Monitor(WaitProcess, 1, 1), Prober(EnterGate)])
  }

  function Monitored(opts: SessionOpts, n: nat): Sys {
    Sys(Shared(Tunnel(opts, StateRunning, n, true, 1), [Old(opts), Fresh(opts)], [0, 0], Begun(n) + [Installed(1)], false),
        BYSTANDERS + [Loop(SpawnProber), Monitor(WaitProcess, 1, 1)])
  }

  lemma MonitorSpawned(c: Policy, opts: SessionOpts, n: nat)
    requires opts.typ.TypePortForward?
    ensures Comes(c, Respawned(opts, n), Monitored(opts, n))
  {
    hide Comes;
    var s0 := Respawned(opts, n);
    var s1 := Step(c, s0, Advance(4, false));
    var s2 := Step(c, s1, Advance(4, false));
    assert s2 == Monitored(opts, n);
    Next(c, s1, Advance(4, false));
    Goes(c, s0, Advance(4, false), s2);
  }

  lemma LoopLeaves(c: Policy, opts: SessionOpts, n: nat)
    ensures Comes(c, Monitored(opts, n), Unconfirmed(opts, n))
  {
    hide Comes;
    var s0 := Monitored(opts, n);
    var s1 := Step(c, s0, Advance(4, false));
    var s2 := Step(c, s1, Advance(4, false));
    assert s2 == Unconfirmed(opts, n);
    Next(c, s1, Advance(4, false));
    Goes(c, s0, Advance(4, false), s2);
  }

  /** A report in a running tunnel starts a loop. */
  lemma ReportStartsLoop(c: Policy, s: Sys, m: nat) returns (t: Sys)
    requires m < |s.threads| && s.threads[m].Monitor? && s.threads[m].mpc.ReportExit?
    requires s.sh.sess.state.StateRunning? && s.sh.sess.reconnectable && !s.sh.sess.reconnectInFlight
    ensures Comes(c, s, t) && |t.threads| == |s.threads| + 1 && t.threads[|s.threads|] == Loop(CheckHeader)
    ensures t.sh.procs == s.sh.procs && t.sh.sess == s.sh.sess.(state := StateStalled, reconnectInFlight := true)
  {
    hide Comes;
    var s1 := Step(c, s, Advance(m, false));
    var s2 := Step(c, s1, Advance(m, false));
    t := Step(c, s2, Advance(m, false));
    Next(c, s2, Advance(m, false));
    Goes(c, s1, Advance(m, false), t);
    Goes(c, s, Advance(m, false), t);
  }

  lemma LateReportExhausts(c: Policy, opts: SessionOpts) returns (t: Sys)
    ensures Comes(c, Unconfirmed(opts, c.maxAttempts), t)
    ensures t.sh.sess.state.StateErrored? && InstalledLive(t.sh)
  {
    hide Comes;
    var s := Unconfirmed(opts, c.maxAttempts);
    var s1 := MonitorReaches(c, s, 1);
    var s2 := ReportStartsLoop(c, s1, 1);
    t := Step(c, s2, Advance(|s1.threads|, false));
    Next(c, s2, Advance(|s1.threads|, false));
    Then(c, s1, s2, t);
    Then(c, s, s1, t);
  }

  /** Under every policy the loop can give up to Errored, which the dashboard lists as stopped, while the last respawn is live. */
  lemma ErroredCanHoldLiveSubprocess(c: Policy, opts: SessionOpts)
    requires opts.typ.TypePortForward?
    ensures exists s :: Leads(c, Started(opts), s) && s.sh.sess.state.StateErrored? && InstalledLive(s.sh)
  {
    hide Comes, Leads, Unconfirmed, Monitored, Respawned, Called;
    var n: nat := c.maxAttempts;
    RespawnComes(c, opts, n);
    MonitorSpawned(c, opts, n);
    LoopLeaves(c, opts, n);
    Then(c, Called(c, opts), Respawned(opts, n), Monitored(opts, n));
    Then(c, Called(c, opts), Monitored(opts, n), Unconfirmed(opts, n));
    var t := LateReportExhausts(c, opts);
    Then(c, Called(c, opts), Unconfirmed(opts, n), t);
    FromStart(c, opts, t);
  }

  // ---------------------------------------------------------------- a stop that is never recorded

  /** All attempts have failed, and the old subprocess's monitor has reported meanwhile. */
  function Exhausted(opts: SessionOpts, n: nat): Sys {
    Sys(Shared(Tunnel(opts, StateReconnecting, n, true, 0), [Proc(opts, true, true, true, 1, false)], [1], Begun(n), false),
        [Announcer, Finished, Prober(EnterGate), Finished, Loop(CheckHeader)])
  }

  lemma OldReports(c: Policy, opts: SessionOpts, n: nat)
    requires n > 0
    ensures Comes(c, Retry(opts, n), Exhausted(opts, n))
  {
    hide Comes;
    var s0 := Retry(opts, n);
    var s1 := Step(c, s0, ProcessExits(0));
    var s2 := Step(c, s1, Advance(1, false));
    var s3 := Step(c, s2, Advance(1, false));
    var s4 := Step(c, s3, Advance(1, false));
    assert s4 == Exhausted(opts, n);
    Next(c, s3, Advance(1, false));
    Goes(c, s2, Advance(1, false), s4);
    Goes(c, s1, Advance(1, false), s4);
    Goes(c, s0, ProcessExits(0), s4);
  }

  function Abandoned(opts: SessionOpts, n: nat): Sys {
    Sys(Shared(Tunnel(opts, StateErrored, n, false, 0), [Proc(opts, true, true, true, 1, false)], [1], Begun(n) + [LoopGaveUp], false),
        [Announcer, Finished, Prober(EnterGate), Finished, Finished])
  }

  /** What is left of a loop that announces its end: one event and its flag. */
  lemma LoopEnds(c: Policy, s: Sys, l: nat)
    requires l < |s.threads| && s.threads[l] == Loop(AnnounceEnd)
    ensures Comes(c, s, Sys(s.sh.(sess := s.sh.sess.(reconnectInFlight := false), dirty := false), s.threads[l := Finished]))
  {
    hide Comes;
    var s1 := Step(c, s, Advance(l, false));
    var s2 := Step(c, s1, Advance(l, false));
    assert s2.threads == s.threads[l := Finished];
    Next(c, s1, Advance(l, false));
    Goes(c, s, Advance(l, false), s2);
  }

  lemma LoopGivesUp(c: Policy, opts: SessionOpts)
    ensures Comes(c, Exhausted(opts, c.maxAttempts), Abandoned(opts, c.maxAttempts))
  {
    hide Comes;
    var s0 := Exhausted(opts, c.maxAttempts);
    var s1 := Step(c, s0, Advance(4, false));
    LoopEnds(c, s1, 4);
    assert s1.threads[4 := Finished] == Abandoned(opts, c.maxAttempts).threads;
    Goes(c, s0, Advance(4, false), Abandoned(opts, c.maxAttempts));
  }

  lemma AbandonComes(c: Policy, opts: SessionOpts)
    requires opts.typ.TypePortForward?
    ensures Leads(c, Started(opts), Abandoned(opts, c.maxAttempts))
  {
    hide Comes, Leads, Retry, Trying, Exhausted, Abandoned, Called;
    var n: nat := c.maxAttempts;
    TryComes(c, opts, n);
    TryFails(c, opts, n);
    OldReports(c, opts, n);
    LoopGivesUp(c, opts);
    Then(c, Called(c, opts), Trying(opts, n), Retry(opts, n));
    Then(c, Called(c, opts), Retry(opts, n), Exhausted(opts, n));
    Then(c, Called(c, opts), Exhausted(opts, n), Abandoned(opts, n));
    FromStart(c, opts, Abandoned(opts, n));
  }

  /** The state after a stop call on s has run its critical section. */
  function StopEntered(c: Policy, s: Sys): Sys {
    Step(c, Step(c, s, CallStop), Advance(|s.threads|, false))
  }

  /** A tunnel given up on can be left Stopping, and active, for ever by a stop. */
  ghost predicate StopOfErroredSticks(c: Policy, opts: SessionOpts, s: Sys) {
    Leads(c, Started(opts), s) && s.sh.sess.state.StateErrored? && s.sh.sess.reconnectable && SticksAlone(c, StopEntered(c, s))
  }

  /** Under every policy a tunnel can be given up on so that a stop of it is never recorded without a further call. */
  lemma StoppedTunnelCanStick(c: Policy, opts: SessionOpts)
    requires opts.typ.TypePortForward?
    ensures exists s :: StopOfErroredSticks(c, opts, s)
  {
    hide Comes, Leads;
    var s := Abandoned(opts, c.maxAttempts);
    AbandonComes(c, opts);
    StuckAlone(c, StopEntered(c, s));
    assert StopOfErroredSticks(c, opts, s);
  }

  // ---------------------------------------------------------------- a stop that is undone

  /** The stop call has returned after its timeout; the loop has not looked at the session since. */
  function StopReturned(opts: SessionOpts): Sys {
    Sys(Shared(Tunnel(opts, StateStopping, 1, true, 0), [Old(opts)], [0], Begun(1), true),
        BYSTANDERS + [Loop(CheckHeader), Finished])
  }

  /** The stop is on record, the stop call has returned, the loop is gone; only the old monitor has not reported. */
  function StopDone(opts: SessionOpts): Sys {
    Sys(Shared(Tunnel(opts, StateStopped, 1, false, 0), [Old(opts)], [0], Begun(1), false),
        BYSTANDERS + [Finished, Finished])
  }

  function StopEnters(opts: SessionOpts): Sys {
    Sys(Shared(Tunnel(opts, StateStopping, 1, true, 0), [Old(opts)], [0], Begun(1), true),
        BYSTANDERS + [Loop(CheckHeader), Stopper(CancelStopped(Handles(Some(0), Some(0), Some(0))))])
  }

  lemma StopTimesOut(c: Policy, opts: SessionOpts)
    ensures Comes(c, StopEnters(opts), StopReturned(opts))
  {
    hide Comes;
    var s0 := StopEnters(opts);
    var s1 := Step(c, s0, Advance(5, false));
    var s2 := Step(c, s1, Advance(5, true));
    assert s2 == StopReturned(opts);
    Next(c, s1, Advance(5, true));
    Goes(c, s0, Advance(5, false), s2);
  }

  lemma StopReturns(c: Policy, opts: SessionOpts)
    ensures Comes(c, Step(c, Retry(opts, 1), CallStop), StopReturned(opts))
  {
    hide Comes;
    var s0 := Step(c, Retry(opts, 1), CallStop);
    assert Step(c, s0, Advance(5, false)) == StopEnters(opts);
    StopTimesOut(c, opts);
    Goes(c, s0, Advance(5, false), StopReturned(opts));
  }

  lemma LoopRecords(c: Policy, opts: SessionOpts)
    ensures Comes(c, StopReturned(opts), StopDone(opts))
  {
    hide Comes;
    var s0 := StopReturned(opts);
    var s1 := Step(c, s0, Advance(4, false));
    LoopEnds(c, s1, 4);
    assert s1.threads[4 := Finished] == StopDone(opts).threads;
    Goes(c, s0, Advance(4, false), StopDone(opts));
  }

  /** The late monitor has reported: the stopped session is Stalled, and a new loop is about to start. */
  function StalledAgain(opts: SessionOpts): Sys {
    Sys(Shared(Tunnel(opts, StateStalled, 1, true, 0), [Proc(opts, true, true, true, 1, false)], [1], Begun(1), false),
        [Announcer, Finished, Prober(EnterGate), Finished, Finished, Finished, Loop(CheckHeader)])
  }

  function LateReport(opts: SessionOpts): Sys {
    Sys(Shared(Tunnel(opts, StateStopped, 1, false, 0), [Proc(opts, true, true, true, 1, false)], [1], Begun(1), false),
        [Announcer, Monitor(ReportExit(false), 0, 0), Prober(EnterGate), Finished, Finished, Finished])
  }

  lemma LateMonitorWakes(c: Policy, opts: SessionOpts)
    ensures Comes(c, StopDone(opts), LateReport(opts))
  {
    hide Comes;
    var s0 := StopDone(opts);
    var s1 := Step(c, s0, ProcessExits(0));
    var s2 := Step(c, s1, Advance(1, false));
    var s3 := Step(c, s2, Advance(1, false));
    assert s3 == LateReport(opts);
    Next(c, s2, Advance(1, false));
    Goes(c, s1, Advance(1, false), s3);
    Goes(c, s0, ProcessExits(0), s3);
  }

  lemma LateMonitorReports(c: Policy, opts: SessionOpts)
    ensures Comes(c, LateReport(opts), StalledAgain(opts))
  {
    hide Comes;
    var s0 := LateReport(opts);
    var s1 := Step(c, s0, Advance(1, false));
    var s2 := Step(c, s1, Advance(1, false));
    var s3 := Step(c, s2, Advance(1, false));
    assert s3 == StalledAgain(opts);
    Next(c, s2, Advance(1, false));
    Goes(c, s1, Advance(1, false), s3);
    Goes(c, s0, Advance(1, false), s3);
  }

  /** A probe has succeeded: whatever the policy, the loop has an attempt. */
  function Probed(opts: SessionOpts): Sys {
    Sys(Shared(Tunnel(opts, StateRunning, 0, true, 0).(probeInFlight := true), [Proc(opts, true, true, true, 1, false)], [1],
               Begun(1) + [ProbeSucceeded], true),
        [Announcer, Finished, Prober(AnnounceProbe(false)), Finished, Finished, Finished, Loop(CheckHeader)])
  }

  lemma ProbeSucceeds(c: Policy, opts: SessionOpts)
    ensures Comes(c, StalledAgain(opts), Probed(opts))
  {
    hide Comes;
    var s0 := StalledAgain(opts);
    var s1 := Step(c, s0, Advance(2, true));
    var s2 := Step(c, s1, Advance(2, true));
    var s3 := Step(c, s2, Advance(2, true));
    assert s3 == Probed(opts);
    Next(c, s2, Advance(2, true));
    Goes(c, s1, Advance(2, true), s3);
    Goes(c, s0, Advance(2, true), s3);
  }

  function SecondTry(opts: SessionOpts): Sys {
    Sys(Shared(Tunnel(opts, StateReconnecting, 1, true, 0).(probeInFlight := true), [Proc(opts, true, true, true, 1, false)], [1],
               Begun(1) + [ProbeSucceeded] + [AttemptBegun(1)], false),
        [Announcer, Finished, Prober(AnnounceProbe(false)), Finished, Finished, Finished, Loop(StartFresh(TryOf(opts, 1)))])
  }

  lemma SecondLoopBegins(c: Policy, opts: SessionOpts)
    ensures Comes(c, Probed(opts), SecondTry(opts))
  {
    hide Comes;
    var s0 := Probed(opts);
    var s1 := Step(c, s0, Advance(6, false));
    var s2 := Step(c, s1, Advance(6, false));
    var s3 := Step(c, s2, Advance(6, false));
    var s4 := Step(c, s3, Advance(6, false));
    assert s4 == SecondTry(opts);
    Next(c, s3, Advance(6, false));
    Goes(c, s2, Advance(6, false), s4);
    Goes(c, s1, Advance(6, false), s4);
    Goes(c, s0, Advance(6, false), s4);
  }

  function Resurrected(opts: SessionOpts): Sys {
    Sys(Shared(Tunnel(opts, StateRunning, 1, true, 1).(probeInFlight := true), [Proc(opts, true, true, true, 1, false), Fresh(opts)], [1, 0],
               Begun(1) + [ProbeSucceeded] + [AttemptBegun(1)] + [Installed(1)], true),
        [Announcer, Finished, Prober(AnnounceProbe(false)), Finished, Finished, Finished, Loop(AnnounceInstall(1, 1))])
  }

  lemma SecondLoopRespawns(c: Policy, opts: SessionOpts)
    ensures Comes(c, SecondTry(opts), Resurrected(opts))
  {
    hide Comes;
    var s0 := SecondTry(opts);
    var s1 := Step(c, s0, Advance(6, true));
    var s2 := Step(c, s1, Advance(6, false));
    assert s2 == Resurrected(opts);
    Next(c, s1, Advance(6, false));
    Goes(c, s0, Advance(6, true), s2);
  }

  lemma ResurrectionComes(c: Policy, opts: SessionOpts)
    ensures Comes(c, StopDone(opts), Resurrected(opts))
  {
    hide Comes, StopDone, LateReport, StalledAgain, Probed, SecondTry, Resurrected;
    LateMonitorWakes(c, opts);
    LateMonitorReports(c, opts);
    ProbeSucceeds(c, opts);
    SecondLoopBegins(c, opts);
    SecondLoopRespawns(c, opts);
    Then(c, StopDone(opts), LateReport(opts), StalledAgain(opts));
    Then(c, StopDone(opts), StalledAgain(opts), Probed(opts));
    Then(c, StopDone(opts), Probed(opts), SecondTry(opts));
    Then(c, StopDone(opts), SecondTry(opts), Resurrected(opts));
  }

  /** No stop call and no reconnect loop is in progress. */
  predicate Quiet(s: Sys) {
    forall i :: 0 <= i < |s.threads| ==> !s.threads[i].Stopper? && !s.threads[i].Loop?
  }

  /** A stop called in `before` is complete and recorded in `stopped`, and undone in `again` without any further call. */
  ghost predicate Undone(c: Policy, opts: SessionOpts, before: Sys, stopped: Sys, again: Sys) {
    && Leads(c, Started(opts), before)
    && Comes(c, Step(c, before, CallStop), stopped)
    && stopped.sh.sess.state.StateStopped? && Quiet(stopped)
    && Comes(c, stopped, again)
    && again.sh.sess.state.StateRunning? && InstalledLive(again.sh)
  }

  /**
   Under every policy a user's stop can be undone without anybody asking for it: it has returned,
   Stopped is on record and no loop is active, and still the session comes back to Running with a live
   subprocess.
   */
  lemma StopCanBeUndone(c: Policy, opts: SessionOpts)
    requires opts.typ.TypePortForward?
    ensures exists before, stopped, again :: Undone(c, opts, before, stopped, again)
  {
    hide Comes, Leads;
    RetryOnceComes(c, opts);
    StopReturns(c, opts);
    LoopRecords(c, opts);
    Then(c, Step(c, Retry(opts, 1), CallStop), StopReturned(opts), StopDone(opts));
    ResurrectionComes(c, opts);
    assert Undone(c, opts, Retry(opts, 1), StopDone(opts), Resurrected(opts));
  }

  lemma RetryOnceComes(c: Policy, opts: SessionOpts)
    requires opts.typ.TypePortForward?
    ensures Leads(c, Started(opts), Retry(opts, 1))
  {
    hide Comes, Leads, Trying, Retry, Called;
    TryComes(c, opts, 1);
    TryFails(c, opts, 1);
    Then(c, Called(c, opts), Trying(opts, 1), Retry(opts, 1));
    FromStart(c, opts, Retry(opts, 1));
  }
}
