/**
 The exact condition under which a stop is final. A stopped session that still has a monitor to
 report can be driven out of the stop states again; this module builds such runs.
 */
module StopExact {
  import opened SessionTypes
  import opened Sections
  import opened Lifecycle
  import opened Tallies
  import opened Invariant
  import opened Preservation
  import opened Theorems
  import opened StopFinal
  import opened Reach
  import opened Drive
  import opened StopSticks

  /** No run from s ever leaves the stop states. */
  ghost predicate StopStands(c: Policy, s: Sys) {
    forall t :: Leads(c, s, t) ==> t.sh.sess.state.IsStop()
  }

  // ---------------------------------------------------------------- from Stopped

  /** A report in any state that is neither Reconnecting nor Stopping stalls a reconnectable session. */
  lemma ReportStalls(c: Policy, s: Sys, m: nat) returns (t: Sys)
    requires Inv(c, s) && m < |s.threads| && Plays(PendingMonitor, s.threads[m])
    requires s.sh.sess.reconnectable && !s.sh.sess.state.StateReconnecting? && !s.sh.sess.state.StateStopping?
    ensures Comes(c, s, t) && t.sh.sess.state.StateStalled?
  {
    hide Inv, Comes;
    var mid, i := PendingReaches(c, s, m);
    t := Step(c, mid, Advance(i, false));
    Next(c, mid, Advance(i, false));
    Then(c, s, mid, t);
  }

  // ---------------------------------------------------------------- from Stopping

  /** Once the stop is on record, a monitor that has not reported undoes it. */
  lemma RecordedCanLeave(c: Policy, s: Sys, t: Sys) returns (u: Sys)
    requires Inv(c, s) && Leads(c, s, t) && t.sh.sess.state.StateStopped? && t.sh.sess.reconnectable
    requires Tally(PendingMonitor, t.threads) >= 1
    ensures Leads(c, s, u) && u.sh.sess.state.StateStalled?
  {
    hide Inv, Comes, Leads;
    var m := TallyWitness(PendingMonitor, t.threads);
    ComesKeepsInv(c, s, t);
    u := ReportStalls(c, t, m);
    ComesLeads(c, t, u);
    LeadsThen(c, s, t, u);
  }

  /** A pending monitor can always be used to take a registered, reconnectable session out of the stop states. */
  lemma PendingCanLeave(c: Policy, s: Sys, m: nat) returns (u: Sys)
    requires Inv(c, s) && s.sh.sess.reconnectable && s.sh.sess.state.IsStop()
    requires s.sh.sess.registered || s.sh.sess.state.StateStopped?
    requires m < |s.threads| && Plays(PendingMonitor, s.threads[m])
    ensures Leads(c, s, u) && u.sh.sess.state.StateStalled?
  {
    hide Inv, Comes, Leads;
    TallyHit(PendingMonitor, s.threads, m);
    if s.sh.sess.state.StateStopped? {
      u := ReportStalls(c, s, m);
      ComesLeads(c, s, u);
    } else {
      var t := ManualRecords(c, s);
      u := RecordedCanLeave(c, s, t);
    }
  }

  // ---------------------------------------------------------------- removed while Stopping

  /** The only goroutine that can still record the stop is one monitor, and its report is the last. */
  ghost predicate LoneReport(s: Sys) {
    && s.sh.sess.state.StateStopping? && !s.sh.sess.registered
    && Tally(PendingMonitor, s.threads) == 1
    && forall i :: 0 <= i < |s.threads| ==> !Plays(Attempting, s.threads[i]) && !TriggerUnderWay(s.sh, s.threads[i])
  }

  /** What a step of one goroutine may do to a lone report: nothing, or be that report. */
  predicate LoneStep(sh: Shared, t: Thread, o: Out) {
    && !o.sh.sess.registered
    && !Plays(Attempting, o.next) && !TriggerUnderWay(o.sh, o.next)
    && (o.spawn.Some? ==> !Plays(Attempting, o.spawn.value) && !TriggerUnderWay(o.sh, o.spawn.value))
    && (if o.sh.sess.state.StateStopping? then Gain(PendingMonitor, o) == One(Plays(PendingMonitor, t))
        else o.sh.sess.state.StateStopped? && Plays(PendingMonitor, t) && Gain(PendingMonitor, o) == 0)
  }

  lemma LoneLoop(c: Policy, sh: Shared, pc: LoopPc, choice: bool)
    requires sh.sess.state.StateStopping? && !sh.sess.registered && !Plays(Attempting, Loop(pc))
    ensures LoneStep(sh, Loop(pc), AdvanceLoop(c, sh, pc, choice))
  {
    hide OptsFromSession, HeaderSection;
  }

  lemma LoneMonitor(sh: Shared, pc: MonitorPc, p: nat, k: nat, choice: bool)
    requires sh.sess.state.StateStopping? && !sh.sess.registered && !TriggerUnderWay(sh, Monitor(pc, p, k))
    ensures LoneStep(sh, Monitor(pc, p, k), AdvanceMonitor(sh, pc, p, k, choice))
  {
  }

  lemma LoneProber(c: Policy, sh: Shared, pc: ProberPc, choice: bool)
    requires sh.sess.state.StateStopping? && !sh.sess.registered && !TriggerUnderWay(sh, Prober(pc))
    ensures LoneStep(sh, Prober(pc), AdvanceProber(c, sh, pc, choice))
  {
  }

  lemma LoneThread(c: Policy, sh: Shared, t: Thread, choice: bool)
    requires sh.sess.state.StateStopping? && !sh.sess.registered
    requires !Plays(Attempting, t) && !TriggerUnderWay(sh, t)
    ensures LoneStep(sh, t, AdvanceThread(c, sh, t, choice))
  {
    hide AdvanceLoop, AdvanceMonitor, AdvanceProber;
    match t
    case Monitor(pc, p, k) => LoneMonitor(sh, pc, p, k, choice);
    case Prober(pc) => LoneProber(c, sh, pc, choice);
    case Loop(pc) => LoneLoop(c, sh, pc, choice);
    case Stopper(pc) =>
    case _ =>
  }

  lemma NobodyPending(s: Sys)
    requires Tally(PendingMonitor, s.threads) == 0
    ensures MonitorsDone(s)
  {
    forall i | 0 <= i < |s.threads| ensures !Plays(PendingMonitor, s.threads[i]) {
      if Plays(PendingMonitor, s.threads[i]) {
        TallyHit(PendingMonitor, s.threads, i);
      }
    }
  }

  lemma LoneAdvance(c: Policy, s: Sys, i: nat, choice: bool)
    requires LoneReport(s) && Enabled(s, Advance(i, choice))
    ensures var s' := Step(c, s, Advance(i, choice)); LoneReport(s') || Settled(s')
  {
    hide AdvanceThread, Settled, MonitorsDone, Plays;
    var o := AdvanceThread(c, s.sh, s.threads[i], choice);
    var s' := Step(c, s, Advance(i, choice));
    LoneThread(c, s.sh, s.threads[i], choice);
    TallyAfter(PendingMonitor, s.threads, i, o.next, o.spawn);
    if s'.sh.sess.state.StateStopping? {
      forall j | 0 <= j < |s'.threads|
        ensures !Plays(Attempting, s'.threads[j]) && !TriggerUnderWay(s'.sh, s'.threads[j])
      {
        if j < |s.threads| && j != i {
          assert !TriggerUnderWay(s.sh, s.threads[j]);
        }
      }
    } else {
      NobodyPending(s');
      StoppedIsSettled(s');
    }
  }

  lemma StoppedIsSettled(s: Sys)
    requires s.sh.sess.state.StateStopped? && MonitorsDone(s)
    ensures Settled(s)
  {
  }

  lemma LoneAction(c: Policy, s: Sys, a: Action)
    requires LoneReport(s) && Enabled(s, a)
    ensures LoneReport(Step(c, s, a)) || Settled(Step(c, s, a))
  {
    hide LoneReport, AdvanceThread, Settled;
    match a
    case Advance(i, choice) => LoneAdvance(c, s, i, choice);
    case CallStop => LoneCall(s, Stopper(EnterStop));
    case CallReconnect => LoneCall(s, Reconnector(LookUp));
    case CallRemove => LoneCall(s, Remover);
    case ProcessExits(p) => LoneExit(c, s, p);
  }

  lemma LoneExit(c: Policy, s: Sys, p: nat)
    requires LoneReport(s) && Enabled(s, ProcessExits(p))
    ensures LoneReport(Step(c, s, ProcessExits(p)))
  {
  }

  lemma LoneCall(s: Sys, t: Thread)
    requires LoneReport(s) && (t == Stopper(EnterStop) || t == Reconnector(LookUp) || t == Remover)
    ensures LoneReport(s.(threads := s.threads + [t]))
  {
    hide Tally;
    TallySnoc(PendingMonitor, s.threads, t);
  }

  lemma {:induction false} LoneStands(c: Policy, s: Sys, acts: seq<Action>)
    requires LoneReport(s) && Runs(c, s, acts)
    ensures After(c, s, acts).sh.sess.state.IsStop()
    decreases |acts|
  {
    hide Step, Enabled, Settled;
    if acts != [] {
      LoneAction(c, s, acts[0]);
      if LoneReport(Step(c, s, acts[0])) {
        LoneStands(c, Step(c, s, acts[0]), acts[1..]);
      } else {
        StopIsFinal(c, Step(c, s, acts[0]), acts[1..]);
      }
    }
  }

  /** A second monitor, a loop or a trigger records the stop, and the pending monitor then undoes it. */
  lemma NotLoneCanLeave(c: Policy, s: Sys) returns (u: Sys)
    requires Inv(c, s) && s.sh.sess.reconnectable && s.sh.sess.state.StateStopping? && !s.sh.sess.registered
    requires Tally(PendingMonitor, s.threads) >= 1 && !LoneReport(s)
    ensures Leads(c, s, u) && u.sh.sess.state.StateStalled?
  {
    var i;
    if Tally(PendingMonitor, s.threads) >= 2 {
      i := TallyWitness(PendingMonitor, s.threads);
    } else {
      i :| 0 <= i < |s.threads| && (Plays(Attempting, s.threads[i]) || TriggerUnderWay(s.sh, s.threads[i]));
      assert !Plays(PendingMonitor, s.threads[i]);
    }
    hide Inv, Comes, Leads;
    var t := AttendedRecords(c, s, i);
    ComesLeads(c, s, t);
    u := RecordedCanLeave(c, s, t);
  }

  // ---------------------------------------------------------------- the theorem

  lemma UnreconnectableStep(c: Policy, s: Sys, a: Action)
    requires Inv(c, s) && !s.sh.sess.reconnectable && s.sh.sess.state.IsStop() && Enabled(s, a)
    ensures var s' := Step(c, s, a); Inv(c, s') && !s'.sh.sess.reconnectable && s'.sh.sess.state.IsStop()
  {
    hide Step, Enabled, ThreadOk;
    LeavesStopOnlyByFallThrough(c, s, a);
    StepKeepsInv(c, s, a);
    StepKeepsIdentity(c, s, a);
  }

  lemma {:induction false} UnreconnectableStands(c: Policy, s: Sys, acts: seq<Action>)
    requires Inv(c, s) && !s.sh.sess.reconnectable && s.sh.sess.state.IsStop() && Runs(c, s, acts)
    ensures After(c, s, acts).sh.sess.state.IsStop()
    decreases |acts|
  {
    hide Step, Enabled, Inv;
    if acts != [] {
      UnreconnectableStep(c, s, acts[0]);
      UnreconnectableStands(c, Step(c, s, acts[0]), acts[1..]);
    }
  }

  lemma Stands(c: Policy, s: Sys)
    requires Inv(c, s) && s.sh.sess.state.IsStop()
    requires !s.sh.sess.reconnectable || MonitorsDone(s) || LoneReport(s)
    ensures StopStands(c, s)
  {
    hide Inv, Step, Enabled, LoneReport, MonitorsDone;
    forall t | Leads(c, s, t) ensures t.sh.sess.state.IsStop() {
      var acts :| Runs(c, s, acts) && After(c, s, acts) == t;
      if !s.sh.sess.reconnectable {
        UnreconnectableStands(c, s, acts);
      } else if MonitorsDone(s) {
        StopIsFinal(c, s, acts);
      } else {
        LoneStands(c, s, acts);
      }
    }
  }

  /**
   In every reachable state of a stopping or stopped session: the stop stands, whatever happens next,
   if and only if the session is not reconnectable, or all its monitors have reported, or it was
   removed while Stopping and a single monitor's report is all that can still become of it.
   */
  lemma StopStandsExactly(c: Policy, s: Sys, acts: seq<Action>)
    requires Init(s) && Runs(c, s, acts) && After(c, s, acts).sh.sess.state.IsStop()
    ensures var t := After(c, s, acts);
            StopStands(c, t) <==> !t.sh.sess.reconnectable || MonitorsDone(t) || LoneReport(t)
  {
    hide Inv, Step, Enabled, LoneReport, Leads;
    Reachable(c, s, acts);
    var t := After(c, s, acts);
    if !t.sh.sess.reconnectable || MonitorsDone(t) || LoneReport(t) {
      Stands(c, t);
    } else {
      var m :| 0 <= m < |t.threads| && Plays(PendingMonitor, t.threads[m]);
      TallyHit(PendingMonitor, t.threads, m);
      var u;
      if t.sh.sess.registered || t.sh.sess.state.StateStopped? {
        u := PendingCanLeave(c, t, m);
      } else {
        u := NotLoneCanLeave(c, t);
      }
    }
  }
}
