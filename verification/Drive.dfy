/**
 Schedules that bring one goroutine to where it decides something, while all others wait. With them
 the exactness results build the runs in which a plausible claim fails.
 */
module Drive {
  import opened SessionTypes
  import opened Sections
  import opened Lifecycle
  import opened Tallies
  import opened Invariant
  import opened Reach

  // ---------------------------------------------------------------- a monitor, until it reports

  /** Only goroutine i and the subprocesses of t differ from s. */
  predicate OnlyMoved(s: Sys, t: Sys, i: nat) {
    && i < |s.threads| == |t.threads|
    && t.threads == s.threads[i := t.threads[i]]
    && t.sh.sess == s.sh.sess && t.sh.log == s.sh.log
    && |t.sh.procs| == |s.sh.procs|
  }

  /** t differs from s by steps of the monitor of subprocess p, or by p's exit. */
  predicate OnlyProc(s: Sys, t: Sys, p: nat) {
    && |t.sh.procs| == |s.sh.procs|
    && forall q :: 0 <= q < |s.sh.procs| && q != p ==> t.sh.procs[q] == s.sh.procs[q]
  }

  predicate BeforeReport(t: Thread) {
    t.Monitor? && (t.mpc.WaitProcess? || t.mpc.CloseDone? || t.mpc.ReportExit?)
  }

  /** The subprocess exits, its monitor reaps it and closes its channel; only the report itself is left. */
  lemma MonitorReaches(c: Policy, s: Sys, m: nat) returns (t: Sys)
    requires m < |s.threads| && BeforeReport(s.threads[m]) && s.threads[m].cmd < |s.sh.procs|
    ensures Comes(c, s, t) && OnlyMoved(s, t, m) && OnlyProc(s, t, s.threads[m].cmd)
    ensures t.threads[m].Monitor? && t.threads[m].mpc.ReportExit? && t.threads[m].cmd == s.threads[m].cmd
    decreases !s.threads[m].mpc.ReportExit?, !s.threads[m].mpc.CloseDone?, !HasExited(s.sh, s.threads[m].cmd)
  {
    var p := s.threads[m].cmd;
    if s.threads[m].mpc.ReportExit? {
      Stays(c, s);
      t := s;
    } else if s.threads[m].mpc.CloseDone? {
      t := Step(c, s, Advance(m, false));
      Next(c, s, Advance(m, false));
    } else if HasExited(s.sh, p) {
      t := MonitorReaches(c, Step(c, s, Advance(m, false)), m);
      Goes(c, s, Advance(m, false), t);
    } else {
      t := MonitorReaches(c, Step(c, s, ProcessExits(p)), m);
      Goes(c, s, ProcessExits(p), t);
    }
  }

  // ---------------------------------------------------------------- a loop that is done with the session

  /** The subprocess that a loop disposes of was started. */
  predicate HoldsStarted(sh: Shared, pc: LoopPc) {
    pc.CancelFresh? || pc.KillFresh? || pc.ReapFresh? ==> pc.p < |sh.procs|
  }

  function LeavingRank(sh: Shared, pc: LoopPc): nat {
    match pc
    case CancelFresh(_) => 6
    case KillFresh(_) => 5
    case ReapFresh(p) => if HasExited(sh, p) then 3 else 4
    case AnnounceInstall(_, _) => 4
    case SpawnMonitor(_, _) => 3
    case SpawnProber => 2
    case AnnounceEnd => 2
    case _ => 1
  }

  lemma LeavingStep(c: Policy, sh: Shared, pc: LoopPc)
    requires Leaving(Loop(pc)) && HoldsStarted(sh, pc)
    requires pc.ReapFresh? ==> HasExited(sh, pc.p)
    ensures var o := AdvanceLoop(c, sh, pc, false);
            && Ready(sh, Loop(pc), false)
            && (if pc.ClearInFlight? then o.next.Finished? && o.sh.sess == sh.sess.(reconnectInFlight := false)
                else Leaving(o.next) && HoldsStarted(o.sh, o.next.lpc) && LeavingRank(o.sh, o.next.lpc) < LeavingRank(sh, pc)
                     && o.sh.sess == sh.sess)
            && Gain(PendingMonitor, o) == One(Plays(PendingMonitor, Loop(pc)))
  {
  }

  /** Loop l is gone, with its flag cleared; what it still had to spawn was spawned, and nothing else moved. */
  ghost predicate LoopGone(s: Sys, t: Sys, l: nat) {
    && l < |s.threads| <= |t.threads| && t.threads[l].Finished?
    && (forall j :: 0 <= j < |s.threads| && j != l ==> t.threads[j] == s.threads[j])
    && t.sh.sess == s.sh.sess.(reconnectInFlight := false)
    && Tally(PendingMonitor, t.threads) == Tally(PendingMonitor, s.threads)
  }

  lemma {:induction false} LeavingLoopGoes(c: Policy, s: Sys, l: nat) returns (t: Sys)
    requires l < |s.threads| && Leaving(s.threads[l]) && HoldsStarted(s.sh, s.threads[l].lpc)
    ensures Comes(c, s, t) && LoopGone(s, t, l)
    decreases LeavingRank(s.sh, s.threads[l].lpc)
  {
    hide AdvanceLoop, Comes, Plays, Tally;
    var pc := s.threads[l].lpc;
    if pc.ReapFresh? && !HasExited(s.sh, pc.p) {
      t := LeavingLoopGoes(c, Step(c, s, ProcessExits(pc.p)), l);
      Goes(c, s, ProcessExits(pc.p), t);
    } else {
      var o := AdvanceThread(c, s.sh, s.threads[l], false);
      LeavingStep(c, s.sh, pc);
      var s' := Step(c, s, Advance(l, false));
      TallyAfter(PendingMonitor, s.threads, l, o.next, o.spawn);
      if pc.ClearInFlight? {
        t := s';
        Next(c, s, Advance(l, false));
      } else {
        t := LeavingLoopGoes(c, s', l);
        Goes(c, s, Advance(l, false), t);
      }
    }
  }

  // ---------------------------------------------------------------- a loop that finds the stop

  function AttemptRank(pc: LoopPc): nat {
    match pc
    case AnnounceAttempt(_) => 8
    case CancelOld(_) => 7
    case AwaitOld(_) => 6
    case StartFresh(_) => 5
    case RecordFailure(_) => 4
    case AnnounceFailure(_) => 3
    case SleepBackoff(_) => 2
    case _ => 1
  }

  /** Driven so, a loop waits for nothing and starts nothing. */
  function Timeout(pc: LoopPc): bool {
    pc.AwaitOld? && pc.try.prior.waitDone.Some?
  }

  lemma AttemptStep(c: Policy, sh: Shared, pc: LoopPc)
    requires Plays(Attempting, Loop(pc)) && sh.sess.state.StateStopping?
    ensures var o := AdvanceLoop(c, sh, pc, Timeout(pc));
            && o.spawn.None? && !Plays(PendingMonitor, o.next)
            && (if pc.CheckHeader? || pc.InstallFresh? then o.sh.sess == sh.sess.(state := StateStopped)
                else o.sh.sess == sh.sess && Plays(Attempting, o.next) && AttemptRank(o.next.lpc) < AttemptRank(pc))
  {
  }

  /** The stop is on record. */
  predicate StopOnRecord(s: Sys, t: Sys) {
    t.sh.sess.state.StateStopped? && t.sh.sess.reconnectable == s.sh.sess.reconnectable
  }

  /** A loop that has not left looks at the session once more, and records the stop. */
  lemma {:induction false} AttemptRecords(c: Policy, s: Sys, l: nat) returns (t: Sys)
    requires l < |s.threads| && Plays(Attempting, s.threads[l]) && s.sh.sess.state.StateStopping?
    ensures Comes(c, s, t) && StopOnRecord(s, t)
    ensures Tally(PendingMonitor, t.threads) == Tally(PendingMonitor, s.threads)
    decreases AttemptRank(s.threads[l].lpc)
  {
    hide AdvanceLoop, Comes, Tally;
    var pc := s.threads[l].lpc;
    var a := Advance(l, Timeout(pc));
    var o := AdvanceThread(c, s.sh, s.threads[l], Timeout(pc));
    AttemptStep(c, s.sh, pc);
    TallyAfter(PendingMonitor, s.threads, l, o.next, o.spawn);
    if pc.CheckHeader? || pc.InstallFresh? {
      t := Step(c, s, a);
      Next(c, s, a);
    } else {
      t := AttemptRecords(c, Step(c, s, a), l);
      Goes(c, s, a, t);
    }
  }

  // ---------------------------------------------------------------- a trigger under way

  /** The goroutine is on its way to triggerReconnect for a reconnectable session. */
  predicate TriggerUnderWay(sh: Shared, t: Thread) {
    match t
    case Monitor(pc, _, _) => pc.Retrigger? || (pc.AnnounceReport? && pc.retrigger)
    case Prober(pc) => pc.TriggerFromProbe? || (pc.AnnounceProbe? && pc.reconnect)
    case Reconnector(pc) => pc.TriggerManual? || (sh.sess.registered && sh.sess.reconnectable)
    case _ => false
  }

  /** The session after a trigger that found no loop in flight. */
  function Triggered(sess: Session, manual: bool): Session {
    (if manual then sess.(attempts := 0) else sess).(reconnectInFlight := true)
  }

  /** Goroutine i has spawned a loop, and nothing else moved. */
  ghost predicate LoopSpawned(s: Sys, t: Sys, i: nat) {
    && i < |s.threads| && |t.threads| == |s.threads| + 1 && t.threads[|s.threads|] == Loop(CheckHeader)
    && (forall j :: 0 <= j < |s.threads| && j != i ==> t.threads[j] == s.threads[j])
    && t.sh.sess == Triggered(s.sh.sess, s.threads[i].Reconnector?)
    && Tally(PendingMonitor, t.threads) == Tally(PendingMonitor, s.threads)
  }

  lemma TriggerApproaches(c: Policy, sh: Shared, t: Thread)
    requires TriggerUnderWay(sh, t) && sh.sess.reconnectable && !sh.sess.reconnectInFlight
    ensures var o := AdvanceThread(c, sh, t, false);
            && Ready(sh, t, false) && !Plays(PendingMonitor, t) && !Plays(PendingMonitor, o.next)
            && (if AtTrigger(t) then o.spawn == Some(Loop(CheckHeader)) && o.sh.sess == Triggered(sh.sess, t.Reconnector?)
                else o.spawn.None? && AtTrigger(o.next) && TriggerUnderWay(o.sh, o.next) && o.sh.sess == sh.sess
                     && o.next.Reconnector? == t.Reconnector?)
  {
  }

  predicate AtTrigger(t: Thread) {
    match t
    case Monitor(pc, _, _) => pc.Retrigger?
    case Prober(pc) => pc.TriggerFromProbe?
    case Reconnector(pc) => pc.TriggerManual?
    case _ => false
  }

  lemma TriggerFires(c: Policy, s: Sys, i: nat) returns (t: Sys)
    requires i < |s.threads| && TriggerUnderWay(s.sh, s.threads[i])
    requires s.sh.sess.reconnectable && !s.sh.sess.reconnectInFlight
    ensures Comes(c, s, t) && LoopSpawned(s, t, i)
    decreases !AtTrigger(s.threads[i])
  {
    hide AdvanceThread, TriggerUnderWay, AtTrigger, Triggered, Comes, Tally;
    var o := AdvanceThread(c, s.sh, s.threads[i], false);
    TriggerApproaches(c, s.sh, s.threads[i]);
    TallyAfter(PendingMonitor, s.threads, i, o.next, o.spawn);
    if AtTrigger(s.threads[i]) {
      t := Step(c, s, Advance(i, false));
      Next(c, s, Advance(i, false));
    } else {
      t := TriggerFires(c, Step(c, s, Advance(i, false)), i);
      Goes(c, s, Advance(i, false), t);
    }
  }

  // ---------------------------------------------------------------- a report still to come

  lemma PendingThread(c: Policy, s: Sys, m: nat)
    requires Inv(c, s) && m < |s.threads| && Plays(PendingMonitor, s.threads[m])
    ensures !BeforeReport(s.threads[m]) ==> Leaving(s.threads[m]) && HoldsStarted(s.sh, s.threads[m].lpc)
    ensures BeforeReport(s.threads[m]) ==> s.threads[m].cmd < |s.sh.procs|
  {
    assert ThreadOk(c, s.sh, s.threads[m]);
  }

  lemma NoLoopNow(c: Policy, s: Sys, m: nat)
    requires Inv(c, s) && !s.sh.sess.reconnectInFlight && m < |s.threads|
    ensures !s.threads[m].Loop?
  {
    if s.threads[m].Loop? {
      TallyHit(LoopActive, s.threads, m);
    }
  }

  lemma MovedTally(r: Role, s: Sys, t: Sys, i: nat)
    requires OnlyMoved(s, t, i) && Plays(r, t.threads[i]) == Plays(r, s.threads[i])
    ensures Tally(r, t.threads) == Tally(r, s.threads)
  {
    TallyUpdate(r, s.threads, i, t.threads[i]);
  }

  /** The session but for the in-flight flag of a loop that may have left. */
  predicate SameBut(sess: Session, sess': Session) {
    sess' == sess || sess' == sess.(reconnectInFlight := false)
  }

  /** A monitor that has not reported, or is yet to be spawned, can be brought to its report. */
  lemma PendingReaches(c: Policy, s: Sys, m: nat) returns (t: Sys, i: nat)
    requires Inv(c, s) && m < |s.threads| && Plays(PendingMonitor, s.threads[m])
    ensures Comes(c, s, t) && SameBut(s.sh.sess, t.sh.sess)
    ensures i < |t.threads| && t.threads[i].Monitor? && t.threads[i].mpc.ReportExit?
    ensures Tally(PendingMonitor, t.threads) == Tally(PendingMonitor, s.threads)
  {
    hide Inv, Comes, HoldsStarted;
    PendingThread(c, s, m);
    var mid := s;
    i := m;
    Stays(c, s);
    if !BeforeReport(s.threads[m]) {
      mid := LeavingLoopGoes(c, s, m);
      TallyHit(PendingMonitor, s.threads, m);
      i := TallyWitness(PendingMonitor, mid.threads);
      ComesLeads(c, s, mid);
      ComesKeepsInv(c, s, mid);
      NoLoopNow(c, mid, i);
      PendingThread(c, mid, i);
    }
    t := MonitorReaches(c, mid, i);
    MovedTally(PendingMonitor, mid, t, i);
    Then(c, s, mid, t);
  }
}
