/**
 Which stop requests are ever recorded as done. StopSession itself only writes Stopping; Stopped is
 left to a monitor's report or to a reconnect loop.
 */
module StopSticks {
  import opened SessionTypes
  import opened Lifecycle
  import opened Tallies
  import opened Invariant
  import opened Preservation
  import opened Reach
  import opened Drive

  /** The goroutine will record a stop, or is on its way to start a loop that will. */
  predicate Attends(sh: Shared, t: Thread) {
    Plays(PendingMonitor, t) || Plays(Attempting, t) || TriggerUnderWay(sh, t)
  }

  /** No monitor has its section still to run, no loop will look at the session, no trigger is under way. */
  predicate Unattended(s: Sys) {
    forall i :: 0 <= i < |s.threads| ==> !Attends(s.sh, s.threads[i])
  }

  /** Goroutines and subprocesses alone never record the stop: the session stays Stopping, and so active. */
  ghost predicate SticksAlone(c: Policy, s: Sys) {
    forall t :: Comes(c, s, t) ==> t.sh.sess.state.StateStopping?
  }

  /** Nothing at all ever records the stop, not even further calls. */
  ghost predicate Sticks(c: Policy, s: Sys) {
    forall t :: Leads(c, s, t) ==> t.sh.sess.state.StateStopping?
  }

  /** A manual reconnect is possible. */
  predicate Revivable(sh: Shared) {
    sh.sess.registered && sh.sess.reconnectable
  }

  // ---------------------------------------------------------------- an unattended stop is never recorded

  /** The goroutine and what it spawned attend to nothing, and nothing makes another one attend. */
  predicate Idled(sh: Shared, o: Out) {
    && o.sh.sess.state.StateStopping?
    && !Attends(o.sh, o.next) && (o.spawn.Some? ==> !Attends(o.sh, o.spawn.value))
    && (Revivable(o.sh) ==> Revivable(sh))
  }

  lemma MonitorIdles(sh: Shared, pc: MonitorPc, p: nat, k: nat, choice: bool)
    requires sh.sess.state.StateStopping? && !Attends(sh, Monitor(pc, p, k))
    ensures Idled(sh, AdvanceMonitor(sh, pc, p, k, choice))
  {
  }

  lemma ProberIdles(c: Policy, sh: Shared, pc: ProberPc, choice: bool)
    requires sh.sess.state.StateStopping? && !Attends(sh, Prober(pc))
    ensures Idled(sh, AdvanceProber(c, sh, pc, choice))
  {
  }

  lemma LoopIdles(c: Policy, sh: Shared, pc: LoopPc, choice: bool)
    requires sh.sess.state.StateStopping? && !Attends(sh, Loop(pc))
    ensures Idled(sh, AdvanceLoop(c, sh, pc, choice))
  {
  }

  lemma StopperIdles(sh: Shared, pc: StopPc, choice: bool)
    requires sh.sess.state.StateStopping?
    ensures Idled(sh, AdvanceStopper(sh, pc, choice))
  {
  }

  lemma ThreadIdles(c: Policy, sh: Shared, t: Thread, choice: bool)
    requires sh.sess.state.StateStopping? && !Attends(sh, t)
    ensures Idled(sh, AdvanceThread(c, sh, t, choice))
  {
    hide AdvanceLoop, AdvanceMonitor, AdvanceProber;
    match t
    case Monitor(pc, p, k) => MonitorIdles(sh, pc, p, k, choice);
    case Prober(pc) => ProberIdles(c, sh, pc, choice);
    case Loop(pc) => LoopIdles(c, sh, pc, choice);
    case Stopper(pc) => StopperIdles(sh, pc, choice);
    case _ =>
  }

  ghost predicate Stuck(s: Sys) {
    s.sh.sess.state.StateStopping? && Unattended(s)
  }

  lemma StuckStep(c: Policy, s: Sys, a: Action)
    requires Stuck(s) && Enabled(s, a) && (IsCall(a) ==> !Revivable(s.sh))
    ensures Stuck(Step(c, s, a)) && (Revivable(Step(c, s, a).sh) ==> Revivable(s.sh))
  {
    hide AdvanceThread;
    if a.Advance? {
      ThreadIdles(c, s.sh, s.threads[a.i], a.choice);
    }
  }

  lemma {:induction false} StuckRun(c: Policy, s: Sys, acts: seq<Action>)
    requires Stuck(s) && Runs(c, s, acts) && (NoCalls(acts) || !Revivable(s.sh))
    ensures After(c, s, acts).sh.sess.state.StateStopping?
    decreases |acts|
  {
    hide Step, Enabled, Unattended;
    if acts != [] {
      StuckStep(c, s, acts[0]);
      StuckRun(c, Step(c, s, acts[0]), acts[1..]);
    }
  }

  // ---------------------------------------------------------------- an attended stop can be recorded

  /** A report in state Stopping records the stop. */
  lemma ReportRecords(c: Policy, s: Sys, m: nat) returns (t: Sys)
    requires Inv(c, s) && s.sh.sess.state.StateStopping? && m < |s.threads| && Plays(PendingMonitor, s.threads[m])
    ensures Comes(c, s, t) && StopOnRecord(s, t)
    ensures Tally(PendingMonitor, t.threads) + 1 == Tally(PendingMonitor, s.threads)
  {
    hide Inv, Comes;
    var mid, i := PendingReaches(c, s, m);
    var o := AdvanceThread(c, mid.sh, mid.threads[i], false);
    TallyAfter(PendingMonitor, mid.threads, i, o.next, o.spawn);
    t := Step(c, mid, Advance(i, false));
    Next(c, mid, Advance(i, false));
    Then(c, s, mid, t);
  }

  /** A trigger starts a loop, after the one in flight has left, and its header records the stop. */
  lemma TriggerRecords(c: Policy, s: Sys, i: nat) returns (t: Sys)
    requires s.sh.sess.state.StateStopping? && s.sh.sess.reconnectable && !s.sh.sess.reconnectInFlight
    requires i < |s.threads| && TriggerUnderWay(s.sh, s.threads[i])
    ensures Comes(c, s, t) && StopOnRecord(s, t)
    ensures Tally(PendingMonitor, t.threads) == Tally(PendingMonitor, s.threads)
  {
    hide Comes;
    var mid := TriggerFires(c, s, i);
    t := AttemptRecords(c, mid, |s.threads|);
    Then(c, s, mid, t);
  }

  lemma LoopHolds(c: Policy, s: Sys, l: nat)
    requires Inv(c, s) && l < |s.threads| && s.threads[l].Loop?
    ensures HoldsStarted(s.sh, s.threads[l].lpc)
  {
    assert ThreadOk(c, s.sh, s.threads[l]);
  }

  lemma TriggerIsOurs(c: Policy, s: Sys, i: nat)
    requires Inv(c, s) && i < |s.threads| && TriggerUnderWay(s.sh, s.threads[i])
    ensures s.sh.sess.reconnectable && !s.threads[i].Loop?
  {
    assert ThreadOk(c, s.sh, s.threads[i]);
  }

  lemma TriggerOrLoopRecords(c: Policy, s: Sys, i: nat) returns (t: Sys)
    requires Inv(c, s) && s.sh.sess.state.StateStopping? && i < |s.threads| && TriggerUnderWay(s.sh, s.threads[i])
    ensures Comes(c, s, t) && StopOnRecord(s, t)
    ensures Tally(PendingMonitor, t.threads) == Tally(PendingMonitor, s.threads)
  {
    TriggerIsOurs(c, s, i);
    if !s.sh.sess.reconnectInFlight {
      t := TriggerRecords(c, s, i);
    } else {
      var l := TallyWitness(LoopActive, s.threads);
      hide Inv, Comes, HoldsStarted;
      if Plays(Attempting, s.threads[l]) {
        t := AttemptRecords(c, s, l);
      } else {
        LoopHolds(c, s, l);
        var mid := LeavingLoopGoes(c, s, l);
        t := TriggerRecords(c, mid, i);
        Then(c, s, mid, t);
      }
    }
  }

  /** Whoever attends to a stop can be brought to record it, and no other monitor reports meanwhile. */
  lemma AttendedRecords(c: Policy, s: Sys, i: nat) returns (t: Sys)
    requires Inv(c, s) && s.sh.sess.state.StateStopping? && i < |s.threads| && Attends(s.sh, s.threads[i])
    ensures Comes(c, s, t) && StopOnRecord(s, t)
    ensures Tally(PendingMonitor, t.threads) + One(Plays(PendingMonitor, s.threads[i])) == Tally(PendingMonitor, s.threads)
  {
    hide Inv, Comes;
    if Plays(PendingMonitor, s.threads[i]) {
      t := ReportRecords(c, s, i);
    } else if Plays(Attempting, s.threads[i]) {
      t := AttemptRecords(c, s, i);
    } else {
      t := TriggerOrLoopRecords(c, s, i);
    }
  }

  lemma ManualRecords(c: Policy, s: Sys) returns (t: Sys)
    requires Inv(c, s) && s.sh.sess.state.StateStopping? && Revivable(s.sh)
    ensures Leads(c, s, t) && StopOnRecord(s, t)
    ensures Tally(PendingMonitor, t.threads) == Tally(PendingMonitor, s.threads)
  {
    hide Inv, Comes, Leads;
    var called := Step(c, s, CallReconnect);
    StepKeepsInv(c, s, CallReconnect);
    TallySnoc(PendingMonitor, s.threads, Reconnector(LookUp));
    t := AttendedRecords(c, called, |s.threads|);
    ComesLeads(c, called, t);
    LeadsOn(c, s, CallReconnect, t);
  }

  // ---------------------------------------------------------------- the theorems

  lemma StuckAlone(c: Policy, s: Sys)
    requires Stuck(s)
    ensures SticksAlone(c, s)
  {
    forall t | Comes(c, s, t) ensures t.sh.sess.state.StateStopping? {
      var acts :| Runs(c, s, acts) && After(c, s, acts) == t && NoCalls(acts);
      StuckRun(c, s, acts);
    }
  }

  lemma StuckForever(c: Policy, s: Sys)
    requires Stuck(s) && !Revivable(s.sh)
    ensures Sticks(c, s)
  {
    forall t | Leads(c, s, t) ensures t.sh.sess.state.StateStopping? {
      var acts :| Runs(c, s, acts) && After(c, s, acts) == t;
      StuckRun(c, s, acts);
    }
  }

  /**
   A stopping session of any kind: left alone it stays Stopping for ever if and only if nobody
   attends to it; and no further call helps either if and only if, besides, it cannot be reconnected.
   In particular a registered reconnectable session never sticks for good.
   */
  lemma SticksExactly(c: Policy, s: Sys, acts: seq<Action>)
    requires Init(s) && Runs(c, s, acts) && After(c, s, acts).sh.sess.state.StateStopping?
    ensures var t := After(c, s, acts);
            && (SticksAlone(c, t) <==> Unattended(t))
            && (Sticks(c, t) <==> Unattended(t) && !Revivable(t.sh))
  {
    hide Inv, Step, Enabled, Revivable, Attends;
    Reachable(c, s, acts);
    var t := After(c, s, acts);
    if !Unattended(t) {
      var i :| 0 <= i < |t.threads| && Attends(t.sh, t.threads[i]);
      var u := AttendedRecords(c, t, i);
      ComesLeads(c, t, u);
    } else {
      StuckAlone(c, t);
      if Revivable(t.sh) {
        var u := ManualRecords(c, t);
      } else {
        StuckForever(c, t);
      }
    }
  }

  lemma EnterStopKeepsAttendance(c: Policy, t: Sys, i: nat)
    requires t.sh.sess.registered && i < |t.threads| && t.threads[i] == Stopper(EnterStop)
    ensures var t' := Step(c, t, Advance(i, false));
            && t'.sh.sess.state.StateStopping? && (Unattended(t') <==> Unattended(t)) && (Revivable(t'.sh) <==> Revivable(t.sh))
  {
    var t' := Step(c, t, Advance(i, false));
    forall j | 0 <= j < |t.threads| ensures Attends(t'.sh, t'.threads[j]) <==> Attends(t.sh, t.threads[j]) {}
  }

  /**
   A stop request is never recorded, unless somebody makes a further call, if and only if nobody
   attends to the session when the request enters its critical section: such a request leaves a
   finished session Stopping, and active, for ever.
   */
  lemma StopSticksExactly(c: Policy, s: Sys, acts: seq<Action>, i: nat)
    requires Init(s) && Runs(c, s, acts)
    requires var t := After(c, s, acts); t.sh.sess.registered && i < |t.threads| && t.threads[i] == Stopper(EnterStop)
    ensures var t := After(c, s, acts);
            var t' := Step(c, t, Advance(i, false));
            t'.sh.sess.state.IsActive() && (SticksAlone(c, t') <==> Unattended(t))
  {
    Reachable(c, s, acts);
    var t := After(c, s, acts);
    StepKeepsInv(c, t, Advance(i, false));
    EnterStopKeepsAttendance(c, t, i);
    var t' := Step(c, t, Advance(i, false));
    hide Inv, Step, Enabled, Attends;
    if Unattended(t') {
      StuckAlone(c, t');
    } else {
      var j :| 0 <= j < |t'.threads| && Attends(t'.sh, t'.threads[j]);
      var u := AttendedRecords(c, t', j);
    }
  }

  /** A shell whose exit is on record, and any external session, is unattended. */
  lemma ReportedIsUnattended(c: Policy, t: Sys)
    requires Inv(c, t) && !t.sh.sess.reconnectable && (t.sh.sess.cancel.None? || ExitRecorded(t.sh.sess))
    ensures Unattended(t)
  {
    forall j | 0 <= j < |t.threads| ensures !Attends(t.sh, t.threads[j]) {
      assert ThreadOk(c, t.sh, t.threads[j]);
      if Plays(PendingMonitor, t.threads[j]) {
        TallyHit(PendingMonitor, t.threads, j);
      }
    }
  }

  /** Stopping a shell after its exit was recorded, or an external session at any time, leaves it Stopping for good. */
  lemma StopAfterExitSticks(c: Policy, s: Sys, acts: seq<Action>, i: nat)
    requires Init(s) && Runs(c, s, acts)
    requires var t := After(c, s, acts);
             && !t.sh.sess.reconnectable && t.sh.sess.registered
             && (t.sh.sess.cancel.None? || ExitRecorded(t.sh.sess))
             && i < |t.threads| && t.threads[i] == Stopper(EnterStop)
    ensures var t' := Step(c, After(c, s, acts), Advance(i, false));
            Sticks(c, t') && t'.sh.sess.state.IsActive()
  {
    Reachable(c, s, acts);
    var t := After(c, s, acts);
    ReportedIsUnattended(c, t);
    EnterStopKeepsAttendance(c, t, i);
    StuckForever(c, Step(c, t, Advance(i, false)));
  }
}
